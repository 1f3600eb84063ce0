/** The slot-based parking lot document: slots, the derived counts and the pre-save status hook. */
module ParkingLot {
  import opened Common
  import Text

  datatype SlotStatus = Available | Occupied | Reserved | Maintenance

  datatype VehicleType = Motorbike | Car4Seats | Car7Seats | Suv | EvCar | AnyVehicle

  datatype LotStatus = LotActive | LotMaintenance | LotFull | LotClosed

  /** One slot sub-document. `vehicleType` is None for a stored slot that lacks the field. */
  datatype Slot = Slot(
    id: SlotId,
    identifier: string,
    status: SlotStatus,
    vehicleType: Option<VehicleType>,
    sensorId: Option<string>,
    currentBooking: Option<BookingId>)

  /** A slot as given in a request body, before Mongoose casts it and fills in defaults. */
  datatype SlotInput = SlotInput(
    identifier: Option<string>,
    status: Field<SlotStatus>,
    vehicleType: Field<VehicleType>,
    sensorId: Option<string>,
    currentBooking: Option<BookingId>)

  /** Per-class hourly base prices; the three rates are required by the schema. */
  datatype PricingTiers = PricingTiers(motorbike: int, car4Seats: int, suv: int, evChargingFee: int)

  /** `pricingTiers[vehicleType].basePricePerHour`: only three classes have a tier. */
  function TierRate(tiers: PricingTiers, vt: Option<VehicleType>): (r: Option<int>)
    ensures r.Some? <==> vt == Some(Motorbike) || vt == Some(Car4Seats) || vt == Some(Suv)
    ensures vt == Some(Motorbike) ==> r == Some(tiers.motorbike)
    ensures vt == Some(Car4Seats) ==> r == Some(tiers.car4Seats)
    ensures vt == Some(Suv) ==> r == Some(tiers.suv)
  {
    match vt
    case Some(Motorbike) => Some(tiers.motorbike)
    case Some(Car4Seats) => Some(tiers.car4Seats)
    case Some(Suv) => Some(tiers.suv)
    case _ => None
  }

  /** Casting and validating a slot input: absent fields take the schema defaults, strings are
      trimmed; None when the required identifier is missing or blank, or when `status` or
      `vehicleType` is not one of its enum values. */
  function CastSlot(id: SlotId, input: SlotInput): (r: Option<Slot>)
    ensures r.Some? <==>
      && input.identifier.Some? && Text.Trim(input.identifier.value) != []
      && !input.status.Malformed? && !input.vehicleType.Malformed?
    ensures r.Some? ==> r.value.id == id && r.value.identifier == Text.Trim(input.identifier.value)
    ensures r.Some? ==> r.value.status == (if input.status.Given? then input.status.value else Available)
    ensures r.Some? ==>
      r.value.vehicleType == Some(if input.vehicleType.Given? then input.vehicleType.value else AnyVehicle)
    ensures r.Some? && input.sensorId.None? ==> r.value.sensorId == None
    ensures r.Some? ==> r.value.currentBooking == input.currentBooking
  {
    if input.identifier.None? || Text.Trim(input.identifier.value) == [] then None
    else if input.status.Malformed? || input.vehicleType.Malformed? then None
    else
      Some(Slot(
        id,
        Text.Trim(input.identifier.value),
        if input.status.Given? then input.status.value else Available,
        Some(if input.vehicleType.Given? then input.vehicleType.value else AnyVehicle),
        if input.sensorId.Some? then Some(Text.Trim(input.sensorId.value)) else None,
        input.currentBooking))
  }

  predicate IsAvailable(s: Slot) { s.status == Available }

  /** The `availableSpots` virtual: slots whose status is `available`. */
  function CountAvailable(slots: seq<Slot>): nat {
    Count(slots, IsAvailable)
  }

  /** `availableSpots` never exceeds `totalSpots`, and equals it only when every slot is available. */
  lemma AvailableAtMostTotal(slots: seq<Slot>)
    ensures CountAvailable(slots) <= |slots|
    ensures CountAvailable(slots) == 0 <==> forall i :: 0 <= i < |slots| ==> slots[i].status != Available
  {
    CountZero(slots, IsAvailable);
  }

  function TypeOf(s: Slot): VehicleType { s.vehicleType.GetOr(AnyVehicle) }

  /** Available slots whose (defaulted) vehicle type is `t`. */
  function CountAvailableOfType(slots: seq<Slot>, t: VehicleType): nat {
    Count(slots, (s: Slot) => s.status == Available && TypeOf(s) == t)
  }

  /** The `availabilityByType` virtual, as the `reduce` over the slots builds it. */
  function AvailabilityByType(slots: seq<Slot>): map<VehicleType, nat> {
    if slots == [] then map[]
    else
      var stats := AvailabilityByType(slots[..|slots| - 1]);
      var s := slots[|slots| - 1];
      if s.status == Available then
        var t := TypeOf(s);
        stats[t := (if t in stats then stats[t] else 0) + 1]
      else stats
  }

  function Lookup(m: map<VehicleType, nat>, t: VehicleType): nat {
    if t in m then m[t] else 0
  }

  /** A type appears in `availabilityByType` exactly when it has an available slot,
      and its entry is the number of such slots. */
  lemma {:induction false} AvailabilityByTypeCounts(slots: seq<Slot>, t: VehicleType)
    ensures t in AvailabilityByType(slots) <==> CountAvailableOfType(slots, t) > 0
    ensures Lookup(AvailabilityByType(slots), t) == CountAvailableOfType(slots, t)
  {
    if slots != [] {
      AvailabilityByTypeCounts(slots[..|slots| - 1], t);
    }
  }

  function SumByType(m: map<VehicleType, nat>): nat {
    Lookup(m, Motorbike) + Lookup(m, Car4Seats) + Lookup(m, Car7Seats)
      + Lookup(m, Suv) + Lookup(m, EvCar) + Lookup(m, AnyVehicle)
  }

  /** The per-type availability adds up to `availableSpots`. */
  lemma {:induction false} AvailabilityByTypeSum(slots: seq<Slot>)
    ensures SumByType(AvailabilityByType(slots)) == CountAvailable(slots)
  {
    if slots != [] {
      var prefix := slots[..|slots| - 1];
      AvailabilityByTypeSum(prefix);
      var s := slots[|slots| - 1];
      assert CountAvailable(slots) == CountAvailable(prefix) + Ind(IsAvailable(s));
      var before, after := AvailabilityByType(prefix), AvailabilityByType(slots);
      if s.status == Available {
        var t := TypeOf(s);
        assert Lookup(after, t) == Lookup(before, t) + 1;
        assert forall u :: u != t ==> Lookup(after, u) == Lookup(before, u);
      }
    }
  }

  /** The lot status the pre-save hook leaves, given how many slots are available. */
  function StatusAfterSave(status: LotStatus, available: nat, slotsModified: bool): (r: LotStatus)
    ensures !slotsModified ==> r == status
    ensures slotsModified ==> (r == LotFull <==> available == 0)
    ensures slotsModified && available > 0 && status != LotFull ==> r == status
    ensures slotsModified && available > 0 && status == LotFull ==> r == LotActive
  {
    if !slotsModified then status
    else if available == 0 then LotFull
    else if status == LotFull && available > 0 then LotActive
    else status
  }

  /** Saving twice changes nothing the first save did not. */
  lemma StatusAfterSaveIdempotent(status: LotStatus, available: nat, m1: bool, m2: bool)
    ensures StatusAfterSave(StatusAfterSave(status, available, m1), available, m2)
         == StatusAfterSave(status, available, m1 || m2)
  {
  }

  function FindSlot(slots: seq<Slot>, id: SlotId): (r: Option<nat>)
    ensures r.Some? ==> r.value < |slots| && slots[r.value].id == id
    ensures r.Some? ==> forall j :: 0 <= j < r.value ==> slots[j].id != id
    ensures r.None? <==> forall j :: 0 <= j < |slots| ==> slots[j].id != id
  {
    if slots == [] then None
    else if slots[0].id == id then Some(0)
    else
      var r := FindSlot(slots[1..], id);
      if r.Some? then Some(r.value + 1) else None
  }

  predicate DistinctIds(slots: seq<Slot>) {
    forall i, j :: 0 <= i < j < |slots| ==> slots[i].id != slots[j].id
  }

  class ParkingLotDoc {
    const id: LotId
    var slots: seq<Slot>
    var status: LotStatus
    var rating: real
    var numReviews: int
    var pricingTiers: PricingTiers

    /** The schema's validators on a stored lot, plus the uniqueness of sub-document ids. */
    ghost predicate Valid()
      reads this
    {
      && 0.0 <= rating <= 5.0
      && numReviews >= 0
      && DistinctIds(slots)
    }

    function TotalSpots(): nat
      reads this
    {
      |slots|
    }

    function AvailableSpots(): nat
      reads this
    {
      CountAvailable(slots)
    }

    /** A new lot: status `active`, no reviews, and its given slots. */
    constructor (id: LotId, slots: seq<Slot>, tiers: PricingTiers)
      requires DistinctIds(slots)
      ensures Valid()
      ensures this.id == id && this.slots == slots && pricingTiers == tiers
      ensures status == LotActive && rating == 0.0 && numReviews == 0
    {
      this.id := id;
      this.slots := slots;
      this.status := LotActive;
      this.rating := 0.0;
      this.numReviews := 0;
      this.pricingTiers := tiers;
    }

    /** Saving the lot with `newSlots` in place of its slots: the pre-save hook runs with the
        slots marked modified. */
    method SaveSlots(newSlots: seq<Slot>)
      requires Valid() && DistinctIds(newSlots)
      modifies this`slots, this`status
      ensures Valid() && slots == newSlots
      ensures status == StatusAfterSave(old(status), CountAvailable(newSlots), true)
      ensures status == LotFull <==> CountAvailable(newSlots) == 0
    {
      slots := newSlots;
      PreSave(true);
    }

    /** Saving the lot with slot `i` replaced by `s`, which keeps its id; the pre-save hook
        sees the slots as modified only if they changed. */
    method SaveSlot(i: nat, s: Slot)
      requires Valid() && i < |slots| && s.id == slots[i].id
      modifies this`slots, this`status
      ensures Valid() && slots == old(slots)[i := s]
      ensures status == StatusAfterSave(old(status), CountAvailable(slots), slots != old(slots))
    {
      var before := slots;
      slots := slots[i := s];
      PreSave(slots != before);
    }

    /** Saving the lot with new review stats; the slots are not modified, so the pre-save hook
        leaves the status alone. */
    method SaveStats(newNumReviews: int, newRating: real)
      requires Valid() && newNumReviews >= 0 && 0.0 <= newRating <= 5.0
      modifies this`numReviews, this`rating, this`status
      ensures Valid() && numReviews == newNumReviews && rating == newRating
      ensures status == old(status)
    {
      numReviews, rating := newNumReviews, newRating;
      PreSave(false);
    }

    /** The pre-save hook: with modified slots, no available slot forces `full`, and a
        `full` lot with a free slot reopens as `active`. */
    method PreSave(slotsModified: bool)
      modifies this`status
      ensures status == StatusAfterSave(old(status), AvailableSpots(), slotsModified)
      ensures slotsModified ==> (status == LotFull <==> AvailableSpots() == 0)
      ensures slotsModified && old(status) == LotFull && AvailableSpots() > 0 ==> status == LotActive
    {
      if slotsModified {
        if AvailableSpots() == 0 {
          status := LotFull;
        } else if status == LotFull && AvailableSpots() > 0 {
          status := LotActive;
        }
      }
    }
  }
}
