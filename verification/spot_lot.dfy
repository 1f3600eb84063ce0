/** The spot-based lot schema variant: a stored `capacity`, a cached `availableSpots` that the
    pre-save hook recounts from the spots, and a rating average kept in [1, 5]. */
module SpotLot {
  import opened Common

  datatype SpotType = Standard | Large | ElectricVehicle | Disabled

  datatype Spot = Spot(spotNumber: string, isOccupied: bool, spotType: SpotType)

  /** A spot as given, before casting; `Malformed` is a `spotType` outside the enum. */
  datatype SpotInput = SpotInput(spotNumber: Option<string>, isOccupied: Option<bool>, spotType: Field<SpotType>)

  /** Casting and validating a spot: the number is required (an empty string fails it), a new
      spot is free and `standard` unless told otherwise. */
  function CastSpot(input: SpotInput): (r: Option<Spot>)
    ensures r.Some? <==> input.spotNumber.Some? && input.spotNumber.value != [] && !input.spotType.Malformed?
    ensures r.Some? ==> r.value.spotNumber == input.spotNumber.value
    ensures r.Some? ==> r.value.isOccupied == (input.isOccupied == Some(true))
    ensures r.Some? ==> r.value.spotType == (if input.spotType.Given? then input.spotType.value else Standard)
  {
    if input.spotNumber.None? || input.spotNumber.value == [] || input.spotType.Malformed? then None
    else
      Some(Spot(
        input.spotNumber.value,
        input.isOccupied.GetOr(false),
        if input.spotType.Given? then input.spotType.value else Standard))
  }

  predicate Free(s: Spot) { !s.isOccupied }

  /** `spots.filter(spot => !spot.isOccupied).length`. */
  function FreeSpots(spots: seq<Spot>): (n: nat)
    ensures n <= |spots|
    ensures n == 0 <==> forall i :: 0 <= i < |spots| ==> spots[i].isOccupied
  {
    CountZero(spots, Free);
    Count(spots, Free)
  }

  /** The cached count a save leaves: recounted when the spots were modified, as stored
      otherwise. */
  function AvailableAfterSave(stored: int, spots: seq<Spot>, spotsModified: bool): (n: int)
    ensures spotsModified ==> n == FreeSpots(spots) && 0 <= n <= |spots|
    ensures !spotsModified ==> n == stored
  {
    if spotsModified then FreeSpots(spots) else stored
  }

  /** Occupying a free spot and saving lowers the cached count by one. */
  lemma OccupyLowersAvailable(spots: seq<Spot>, i: nat)
    requires i < |spots| && !spots[i].isOccupied
    ensures AvailableAfterSave(0, spots[i := spots[i].(isOccupied := true)], true)
         == AvailableAfterSave(0, spots, true) - 1
  {
    CountUpdate(spots, i, spots[i].(isOccupied := true), Free);
  }

  /** The hook never looks at `capacity`: whatever the stored capacity, some spots make a
      save leave more free spots than it. */
  lemma CapacityNotReconciled(capacity: nat)
    ensures exists spots :: AvailableAfterSave(0, spots, true) > capacity
  {
    var spots := seq(capacity + 1, _ => Spot("A01", false, Standard));
    CountFull(spots, Free);
    assert AvailableAfterSave(0, spots, true) == capacity + 1;
  }

  const DefaultRating: real := 4.5

  /** The lot document of this variant, reduced to the paths the hook and the validators touch. */
  class SpotParkingLot {
    var capacity: int
    var availableSpots: int
    var spots: seq<Spot>
    var ratingAverage: real
    var ratingQuantity: int

    /** `ratingAverage` validators: between 1 and 5. */
    ghost predicate Valid()
      reads this
    {
      1.0 <= ratingAverage <= 5.0
    }

    /** A new lot with its required `capacity` and `availableSpots`, its spots, and the default
        rating 4.5 from no reviews. */
    constructor (capacity: int, availableSpots: int, spots: seq<Spot>)
      ensures Valid()
      ensures this.capacity == capacity && this.availableSpots == availableSpots && this.spots == spots
      ensures ratingAverage == DefaultRating && ratingQuantity == 0
    {
      this.capacity := capacity;
      this.availableSpots := availableSpots;
      this.spots := spots;
      ratingAverage := DefaultRating;
      ratingQuantity := 0;
    }

    /** The pre-save hook: with modified spots, `availableSpots` becomes the number of free
        spots; `capacity` is never touched. */
    method PreSave(spotsModified: bool)
      requires Valid()
      modifies this`availableSpots
      ensures Valid()
      ensures availableSpots == AvailableAfterSave(old(availableSpots), spots, spotsModified)
    {
      if spotsModified {
        availableSpots := FreeSpots(spots);
      }
    }
  }
}
