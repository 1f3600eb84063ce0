/** The TypeScript lot schema variant: slots with a slot number and a three-way vehicle type,
    and a `statistics` block whose counts the pre-save hook derives from the slots. */
module StatsLot {
  import opened Common
  import Text
  import opened ParkingLot

  datatype SlotVehicle = CarSlot | MotorbikeSlot | AnySlot

  /** One slot sub-document of this variant. */
  datatype TsSlot = TsSlot(
    id: SlotId,
    slotNumber: string,
    status: SlotStatus,
    vehicleType: SlotVehicle,
    currentBooking: Option<BookingId>)

  /** A slot as pushed, before casting; `Malformed` is a value outside the field's enum. */
  datatype TsSlotInput = TsSlotInput(
    slotNumber: Option<string>,
    status: Field<SlotStatus>,
    vehicleType: Field<SlotVehicle>,
    currentBooking: Option<BookingId>)

  /** Casting and validating a slot: the slot number is trimmed and required, `status`
      defaults to `available`, `vehicleType` to `any`, `currentBooking` to null. */
  function CastTsSlot(id: SlotId, input: TsSlotInput): (r: Option<TsSlot>)
    ensures r.Some? <==>
      input.slotNumber.Some? && Text.Trim(input.slotNumber.value) != []
      && !input.status.Malformed? && !input.vehicleType.Malformed?
    ensures r.Some? ==> r.value.id == id && r.value.slotNumber == Text.Trim(input.slotNumber.value)
    ensures r.Some? && input.status.Absent? ==> r.value.status == Available
    ensures r.Some? && input.status.Given? ==> r.value.status == input.status.value
    ensures r.Some? && input.vehicleType.Absent? ==> r.value.vehicleType == AnySlot
    ensures r.Some? && input.vehicleType.Given? ==> r.value.vehicleType == input.vehicleType.value
    ensures r.Some? ==> r.value.currentBooking == input.currentBooking
  {
    if input.slotNumber.None? || Text.Trim(input.slotNumber.value) == [] then None
    else if input.status.Malformed? || input.vehicleType.Malformed? then None
    else
      Some(TsSlot(
        id,
        Text.Trim(input.slotNumber.value),
        if input.status.Given? then input.status.value else Available,
        if input.vehicleType.Given? then input.vehicleType.value else AnySlot,
        input.currentBooking))
  }

  datatype Statistics = Statistics(totalCapacity: int, availableNow: int, averageRating: real, totalReviews: int)

  /** The defaults: every statistic starts at 0. */
  const NoStatistics := Statistics(0, 0, 0.0, 0)

  /** The `min`/`max` validators on the statistics. */
  predicate StatisticsValid(s: Statistics) {
    s.totalCapacity >= 0 && s.availableNow >= 0 && 0.0 <= s.averageRating <= 5.0 && s.totalReviews >= 0
  }

  predicate SlotAvailable(s: TsSlot) { s.status == Available }

  /** The statistics a save leaves: recounted from the slots when they were modified, as
      stored otherwise. */
  function StatisticsAfterSave(stored: Statistics, slots: seq<TsSlot>, slotsModified: bool): (s: Statistics)
    ensures slotsModified ==> s.totalCapacity == |slots|
    ensures slotsModified ==> s.availableNow == Count(slots, SlotAvailable) <= s.totalCapacity
    ensures !slotsModified ==> s == stored
    ensures s.averageRating == stored.averageRating && s.totalReviews == stored.totalReviews
  {
    if slotsModified then stored.(totalCapacity := |slots|, availableNow := Count(slots, SlotAvailable))
    else stored
  }

  /** A save keeps the statistics within their validators. */
  lemma StatisticsAfterSaveValid(stored: Statistics, slots: seq<TsSlot>, slotsModified: bool)
    requires StatisticsValid(stored)
    ensures StatisticsValid(StatisticsAfterSave(stored, slots, slotsModified))
  {
  }

  /** Saving twice recounts nothing new: the hook is idempotent. */
  lemma StatisticsAfterSaveIdempotent(stored: Statistics, slots: seq<TsSlot>, m1: bool, m2: bool)
    ensures m1 ==>
      StatisticsAfterSave(StatisticsAfterSave(stored, slots, m1), slots, m2)
        == StatisticsAfterSave(stored, slots, m1)
  {
  }

  /** After a save with modified slots, `availableNow` is `totalCapacity` exactly when every
      slot is available, and 0 exactly when none is. */
  lemma {:induction false} AvailableNowExtremes(stored: Statistics, slots: seq<TsSlot>)
    ensures var s := StatisticsAfterSave(stored, slots, true);
      (s.availableNow == 0 <==> forall i :: 0 <= i < |slots| ==> slots[i].status != Available)
      && (s.availableNow == s.totalCapacity <==> forall i :: 0 <= i < |slots| ==> slots[i].status == Available)
  {
    CountZero(slots, SlotAvailable);
    CountFull(slots, SlotAvailable);
  }

  /** The lot document of this variant, reduced to the paths the hook reads and writes. */
  class StatsParkingLot {
    var slots: seq<TsSlot>
    var statistics: Statistics

    ghost predicate Valid()
      reads this
    {
      StatisticsValid(statistics)
    }

    /** A new lot with its slots and the default statistics. */
    constructor (slots: seq<TsSlot>)
      ensures Valid() && this.slots == slots && statistics == NoStatistics
    {
      this.slots := slots;
      statistics := NoStatistics;
    }

    /** The pre-save hook: with modified slots, `totalCapacity` becomes the number of slots
        and `availableNow` the number of available ones; otherwise nothing changes. */
    method PreSave(slotsModified: bool)
      requires Valid()
      modifies this`statistics
      ensures Valid()
      ensures statistics == StatisticsAfterSave(old(statistics), slots, slotsModified)
    {
      StatisticsAfterSaveValid(statistics, slots, slotsModified);
      if slotsModified {
        statistics := statistics.(totalCapacity := |slots|, availableNow := Count(slots, SlotAvailable));
      }
    }
  }
}
