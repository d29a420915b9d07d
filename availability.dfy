/**
 * Vehicle availability: the half-open overlap test, the availability checks used when a booking
 * is created or overridden, the auto-assign query, and the 30-minute slot grid of one day.
 * Times are whole minutes; a day starts at `dayStart`, the minute of local midnight.
 */
module Availability {
  import opened Wrappers
  import opened JsText
  import opened Requests

  datatype Vehicle = Vehicle(id: int, name: string, plateNumber: string, status: string)

  /** A row of `car_bookings`: the request it belongs to, the vehicle and the reserved [start, end). */
  datatype CarBooking = CarBooking(requestId: int, vehicleId: int, start: int, end: int, status: string)

  /** `NOT (e2 <= s OR s2 >= e)`: the interval [s2, e2) meets [s, e). */
  predicate Overlaps(s: int, e: int, s2: int, e2: int) {
    !(e2 <= s || s2 >= e)
  }

  predicate InInterval(t: int, s: int, e: int) {
    s <= t < e
  }

  /** For non-empty intervals the test is exact: they overlap iff some minute lies in both. */
  lemma OverlapsIffCommonMinute(s: int, e: int, s2: int, e2: int)
    requires s < e && s2 < e2
    ensures Overlaps(s, e, s2, e2) <==> exists t :: InInterval(t, s, e) && InInterval(t, s2, e2)
  {
    if Overlaps(s, e, s2, e2) {
      var t := if s < s2 then s2 else s;
      assert InInterval(t, s, e) && InInterval(t, s2, e2);
    }
  }

  /** The test is symmetric, and back-to-back intervals never conflict. */
  lemma OverlapsSymmetricAdjacent(s: int, m: int, e: int, s2: int, e2: int)
    ensures Overlaps(s, e, s2, e2) <==> Overlaps(s2, e2, s, e)
    ensures !Overlaps(s, m, m, e) && !Overlaps(m, e, s, m)
  {
  }

  /**
   * The NOT EXISTS sub-query: the booking reserves vehicle `vehicleId`, its request is not
   * CANCELLED (a booking without a request row drops out of the INNER JOIN, and a NULL status
   * makes `status != 'CANCELLED'` unknown, which SQL treats as false), it is not the
   * excluded request, and its interval meets [s, e).
   */
  predicate Blocks(requests: seq<Request>, b: CarBooking, vehicleId: int, s: int, e: int, exclude: Option<int>) {
    && b.vehicleId == vehicleId
    && (exclude.Some? ==> b.requestId != exclude.value)
    && StatusOf(requests, b.requestId).Some?
    && StatusOf(requests, b.requestId).value != ""
    && StatusOf(requests, b.requestId).value != "CANCELLED"
    && Overlaps(s, e, b.start, b.end)
  }

  /** The vehicle is ACTIVE and no booking blocks it over [s, e). */
  predicate VehicleFree(v: Vehicle, bookings: seq<CarBooking>, requests: seq<Request>, s: int, e: int, exclude: Option<int>) {
    v.status == "ACTIVE" && forall b :: b in bookings ==> !Blocks(requests, b, v.id, s, e, exclude)
  }

  /** `db.get` over `vehicles v WHERE v.id = ? AND <free>`: the first such row. */
  function FirstFreeWithId(vehicles: seq<Vehicle>, bookings: seq<CarBooking>, requests: seq<Request>,
                           vehicleId: int, s: int, e: int, exclude: Option<int>): (r: Option<Vehicle>)
    ensures r.None? <==> forall v :: v in vehicles && v.id == vehicleId ==> !VehicleFree(v, bookings, requests, s, e, exclude)
    ensures r.Some? ==> r.value in vehicles && r.value.id == vehicleId && VehicleFree(r.value, bookings, requests, s, e, exclude)
  {
    if |vehicles| == 0 then None
    else if vehicles[0].id == vehicleId && VehicleFree(vehicles[0], bookings, requests, s, e, exclude) then Some(vehicles[0])
    else FirstFreeWithId(vehicles[1..], bookings, requests, vehicleId, s, e, exclude)
  }

  /** `checkVehicleAvailability` when a booking is created. */
  function CheckVehicleAvailability(vehicles: seq<Vehicle>, bookings: seq<CarBooking>, requests: seq<Request>,
                                    vehicleId: int, s: int, e: int): (r: Option<Vehicle>)
    ensures r.Some? <==> exists v :: v in vehicles && v.id == vehicleId && VehicleFree(v, bookings, requests, s, e, None)
    ensures r.Some? ==> r.value in vehicles && r.value.id == vehicleId && r.value.status == "ACTIVE"
    ensures r.Some? ==> forall b :: b in bookings && b.vehicleId == vehicleId && Overlaps(s, e, b.start, b.end) ==>
      StatusOf(requests, b.requestId) == None || StatusOf(requests, b.requestId) == Some("") ||
      StatusOf(requests, b.requestId) == Some("CANCELLED")
  {
    FirstFreeWithId(vehicles, bookings, requests, vehicleId, s, e, None)
  }

  /** The fleet override's check: as above, but the booking's own request never blocks it. */
  function CheckOverrideAvailability(vehicles: seq<Vehicle>, bookings: seq<CarBooking>, requests: seq<Request>,
                                     vehicleId: int, requestId: int, s: int, e: int): (r: Option<Vehicle>)
    ensures r.Some? <==> exists v :: v in vehicles && v.id == vehicleId && VehicleFree(v, bookings, requests, s, e, Some(requestId))
    ensures r.Some? ==> forall b :: b in bookings && b.vehicleId == vehicleId && b.requestId != requestId && Overlaps(s, e, b.start, b.end) ==>
      StatusOf(requests, b.requestId) == None || StatusOf(requests, b.requestId) == Some("") ||
      StatusOf(requests, b.requestId) == Some("CANCELLED")
  {
    FirstFreeWithId(vehicles, bookings, requests, vehicleId, s, e, Some(requestId))
  }

  /** Ignoring the booking's own request can only make a vehicle more available. */
  lemma OverrideCheckIsWeaker(vehicles: seq<Vehicle>, bookings: seq<CarBooking>, requests: seq<Request>,
                              vehicleId: int, requestId: int, s: int, e: int)
    ensures CheckVehicleAvailability(vehicles, bookings, requests, vehicleId, s, e).Some? ==>
      CheckOverrideAvailability(vehicles, bookings, requests, vehicleId, requestId, s, e).Some?
  {
    var r := CheckVehicleAvailability(vehicles, bookings, requests, vehicleId, s, e);
    if r.Some? {
      assert VehicleFree(r.value, bookings, requests, s, e, Some(requestId));
    }
  }

  /**
   * `findAvailableVehicle`: `SELECT ... LIMIT 1` without ORDER BY, so any free ACTIVE vehicle
   * may come back; none only when no vehicle is free.
   */
  method FindAvailableVehicle(vehicles: seq<Vehicle>, bookings: seq<CarBooking>, requests: seq<Request>, s: int, e: int)
    returns (r: Option<Vehicle>)
    ensures r.None? <==> forall v :: v in vehicles ==> !VehicleFree(v, bookings, requests, s, e, None)
    ensures r.Some? ==> r.value in vehicles && VehicleFree(r.value, bookings, requests, s, e, None)
  {
    if v :| v in vehicles && VehicleFree(v, bookings, requests, s, e, None) {
      r := Some(v);
    } else {
      r := None;
    }
  }

  // ---------------- Slot grid ----------------

  const StartHour := 6
  const EndHour := 22
  const SlotMinutes := 30
  const SlotCount := 32

  /** The columns the slot query selects from a booking. */
  datatype DayBooking = DayBooking(vehicleId: int, start: int, end: int)

  /** A wall-clock time of the day; a slot's `startTime` and `endTime` are written as its ClockText. */
  datatype ClockTime = ClockTime(hour: nat, minute: nat)

  datatype Slot = Slot(start: int, end: int, startTime: ClockTime, endTime: ClockTime, available: bool)

  /**
   * The day query's filter: starts within the day (midnight to 23:59), request joined, and its
   * status neither NULL (the test is unknown, so the row is dropped) nor CANCELLED.
   */
  predicate InDayQuery(requests: seq<Request>, b: CarBooking, dayStart: int, vehicleId: Option<int>) {
    && dayStart <= b.start <= dayStart + 1439
    && StatusOf(requests, b.requestId).Some?
    && StatusOf(requests, b.requestId).value != ""
    && StatusOf(requests, b.requestId).value != "CANCELLED"
    && (vehicleId.Some? ==> b.vehicleId == vehicleId.value)
  }

  function DayBookings(bookings: seq<CarBooking>, requests: seq<Request>, dayStart: int, vehicleId: Option<int>): (r: seq<DayBooking>)
    ensures forall d :: d in r <==> exists b :: b in bookings && InDayQuery(requests, b, dayStart, vehicleId) && d == DayBooking(b.vehicleId, b.start, b.end)
  {
    if |bookings| == 0 then []
    else
      var rest := DayBookings(bookings[1..], requests, dayStart, vehicleId);
      var b := bookings[0];
      if InDayQuery(requests, b, dayStart, vehicleId) then [DayBooking(b.vehicleId, b.start, b.end)] + rest else rest
  }

  /** "HH:MM": the hour and the minute, each padded to two digits. */
  function ClockText(c: ClockTime): string {
    Pad2(c.hour) + ":" + Pad2(c.minute)
  }

  /** The clock time of a minute of the day, as `getHours()` and `getMinutes()` give it. */
  function ClockOf(minuteOfDay: nat): ClockTime {
    ClockTime(minuteOfDay / 60, minuteOfDay % 60)
  }

  /** The k-th slot's start, as a minute of the day: 06:00, 06:30, ..., 21:30. */
  function SlotStartMinute(k: nat): nat {
    StartHour * 60 + SlotMinutes * k
  }

  /** No returned booking meets [s, e). */
  predicate SlotFree(dayBookings: seq<DayBooking>, s: int, e: int) {
    forall b :: b in dayBookings ==> !Overlaps(s, e, b.start, b.end)
  }

  /** Some ACTIVE vehicle has no returned booking meeting [s, e). */
  predicate SomeVehicleFree(activeVehicles: seq<Vehicle>, dayBookings: seq<DayBooking>, s: int, e: int) {
    exists v :: v in activeVehicles && forall b :: b in dayBookings && b.vehicleId == v.id ==> !Overlaps(s, e, b.start, b.end)
  }

  /** The k-th slot of the grid: its interval and its clock labels. */
  ghost predicate SlotAt(slot: Slot, dayStart: int, k: nat) {
    && slot.start == dayStart + SlotStartMinute(k)
    && slot.end == slot.start + SlotMinutes
    && slot.startTime == ClockOf(SlotStartMinute(k))
    && slot.endTime == ClockOf(SlotStartMinute(k) + SlotMinutes)
  }

  /** The grid's shape: 32 consecutive 30-minute slots from 06:00 with their clock labels. */
  ghost predicate IsGrid(slots: seq<Slot>, dayStart: int) {
    |slots| == SlotCount && IsGridPrefix(slots, dayStart)
  }

  ghost predicate IsGridPrefix(slots: seq<Slot>, dayStart: int) {
    forall k :: 0 <= k < |slots| ==> SlotAt(slots[k], dayStart, k)
  }

  /** The slot the loop pushes at `hour`:`minute`: its interval, its two labels and its availability. */
  function LoopSlot(dayStart: int, hour: nat, minute: nat, available: bool): Slot {
    var slotStart := dayStart + 60 * hour + minute;
    Slot(slotStart, slotStart + SlotMinutes, ClockTime(hour, minute), ClockOf(60 * hour + minute + SlotMinutes), available)
  }

  /** The slot the loop builds at hour `hour`, minute `minute` is slot number 2 * (hour - 6) + minute / 30. */
  lemma NewSlotAt(dayStart: int, hour: nat, minute: nat, available: bool)
    requires StartHour <= hour && (minute == 0 || minute == 30)
    ensures SlotAt(LoopSlot(dayStart, hour, minute, available), dayStart, 2 * (hour - StartHour) + minute / 30)
  {
    var k := 2 * (hour - StartHour) + minute / 30;
    assert SlotStartMinute(k) == 60 * hour + minute by {
      if minute == 0 {
        assert k == 2 * (hour - StartHour);
      } else {
        assert k == 2 * (hour - StartHour) + 1;
      }
    }
    DivMod60(hour, minute);
  }

  lemma GridPrefixAppend(slots: seq<Slot>, dayStart: int, slot: Slot)
    requires IsGridPrefix(slots, dayStart) && SlotAt(slot, dayStart, |slots|)
    ensures IsGridPrefix(slots + [slot], dayStart)
  {
    forall k | 0 <= k < |slots| + 1
      ensures SlotAt((slots + [slot])[k], dayStart, k)
    {
      if k < |slots| {
        assert (slots + [slot])[k] == slots[k];
      }
    }
  }

  lemma DivMod60(hour: nat, minute: nat)
    requires minute < 60
    ensures (60 * hour + minute) / 60 == hour && (60 * hour + minute) % 60 == minute
  {
  }

  /** The slot loop when a vehicle is given: a slot is available iff no returned booking meets it. */
  method SlotGridForVehicle(dayStart: int, dayBookings: seq<DayBooking>) returns (slots: seq<Slot>)
    ensures IsGrid(slots, dayStart)
    ensures forall k :: 0 <= k < |slots| ==> (slots[k].available <==> SlotFree(dayBookings, slots[k].start, slots[k].end))
  {
    slots := [];
    var hour := StartHour;
    while hour < EndHour
      invariant StartHour <= hour <= EndHour
      invariant |slots| == 2 * (hour - StartHour)
      invariant IsGridPrefix(slots, dayStart)
      invariant forall k :: 0 <= k < |slots| ==> (slots[k].available <==> SlotFree(dayBookings, slots[k].start, slots[k].end))
    {
      var minute := 0;
      while minute < 60
        invariant minute == 0 || minute == 30 || minute == 60
        invariant |slots| == 2 * (hour - StartHour) + minute / 30
        invariant IsGridPrefix(slots, dayStart)
        invariant forall k :: 0 <= k < |slots| ==> (slots[k].available <==> SlotFree(dayBookings, slots[k].start, slots[k].end))
      {
        var slotStart := dayStart + 60 * hour + minute;
        var slotEnd := slotStart + SlotMinutes;
        var isBooked := exists b :: b in dayBookings && Overlaps(slotStart, slotEnd, b.start, b.end);
        var slot := LoopSlot(dayStart, hour, minute, !isBooked);
        NewSlotAt(dayStart, hour, minute, !isBooked);
        GridPrefixAppend(slots, dayStart, slot);
        slots := slots + [slot];
        minute := minute + 30;
      }
      hour := hour + 1;
    }
  }

  /** The slot loop without a vehicle: a slot is available iff some ACTIVE vehicle is free in it. */
  method SlotGridAnyVehicle(dayStart: int, dayBookings: seq<DayBooking>, activeVehicles: seq<Vehicle>) returns (slots: seq<Slot>)
    ensures IsGrid(slots, dayStart)
    ensures forall k :: 0 <= k < |slots| ==> (slots[k].available <==> SomeVehicleFree(activeVehicles, dayBookings, slots[k].start, slots[k].end))
  {
    slots := [];
    var hour := StartHour;
    while hour < EndHour
      invariant StartHour <= hour <= EndHour
      invariant |slots| == 2 * (hour - StartHour)
      invariant IsGridPrefix(slots, dayStart)
      invariant forall k :: 0 <= k < |slots| ==> (slots[k].available <==> SomeVehicleFree(activeVehicles, dayBookings, slots[k].start, slots[k].end))
    {
      var minute := 0;
      while minute < 60
        invariant minute == 0 || minute == 30 || minute == 60
        invariant |slots| == 2 * (hour - StartHour) + minute / 30
        invariant IsGridPrefix(slots, dayStart)
        invariant forall k :: 0 <= k < |slots| ==> (slots[k].available <==> SomeVehicleFree(activeVehicles, dayBookings, slots[k].start, slots[k].end))
      {
        var slotStart := dayStart + 60 * hour + minute;
        var slotEnd := slotStart + SlotMinutes;
        var hasAvailableVehicle := exists v :: (v in activeVehicles &&
          !(exists b :: b in dayBookings && b.vehicleId == v.id && Overlaps(slotStart, slotEnd, b.start, b.end)));
        var slot := LoopSlot(dayStart, hour, minute, hasAvailableVehicle);
        NewSlotAt(dayStart, hour, minute, hasAvailableVehicle);
        GridPrefixAppend(slots, dayStart, slot);
        slots := slots + [slot];
        minute := minute + 30;
      }
      hour := hour + 1;
    }
  }

  /** Consecutive slots touch, and the grid spans exactly 06:00 to 22:00. */
  lemma GridIsContiguous(slots: seq<Slot>, dayStart: int)
    requires IsGrid(slots, dayStart)
    ensures slots[0].start == dayStart + StartHour * 60
    ensures slots[SlotCount - 1].end == dayStart + EndHour * 60
    ensures forall k :: 0 <= k < SlotCount - 1 ==> slots[k].end == slots[k + 1].start
    ensures forall k :: 0 <= k < SlotCount - 1 ==> slots[k].endTime == slots[k + 1].startTime
  {
    assert SlotAt(slots[0], dayStart, 0) && SlotAt(slots[SlotCount - 1], dayStart, SlotCount - 1);
    forall k | 0 <= k < SlotCount - 1
      ensures slots[k].end == slots[k + 1].start && slots[k].endTime == slots[k + 1].startTime
    {
      NeighbourSlots(slots[k], slots[k + 1], dayStart, k);
    }
  }

  /** The grid's first slot reads "06:00" to "06:30" and its last ends at "22:00". */
  lemma GridClockTexts(slots: seq<Slot>, dayStart: int)
    requires IsGrid(slots, dayStart)
    ensures ClockText(slots[0].startTime) == "06:00" && ClockText(slots[0].endTime) == "06:30"
    ensures ClockText(slots[SlotCount - 1].endTime) == "22:00"
  {
    assert SlotAt(slots[0], dayStart, 0) && SlotAt(slots[SlotCount - 1], dayStart, SlotCount - 1);
    assert slots[0].startTime == ClockTime(6, 0) && slots[0].endTime == ClockTime(6, 30);
    assert slots[SlotCount - 1].endTime == ClockTime(22, 0);
  }

  lemma NeighbourSlots(a: Slot, b: Slot, dayStart: int, k: nat)
    requires SlotAt(a, dayStart, k) && SlotAt(b, dayStart, k + 1)
    ensures a.end == b.start && a.endTime == b.startTime
  {
    SlotStartStep(k);
  }

  lemma SlotStartStep(k: nat)
    ensures SlotStartMinute(k) + SlotMinutes == SlotStartMinute(k + 1)
  {
  }

  /**
   * The `available-slots` endpoint once the date is parsed: the day's non-cancelled bookings,
   * then the grid for the given vehicle, or over the ACTIVE vehicles when none is given.
   */
  method AvailableSlots(vehicles: seq<Vehicle>, bookings: seq<CarBooking>, requests: seq<Request>,
                        dayStart: int, vehicleId: Option<int>) returns (slots: seq<Slot>)
    ensures IsGrid(slots, dayStart)
    ensures vehicleId.Some? ==> forall k :: 0 <= k < |slots| ==>
      (slots[k].available <==> forall b :: b in bookings && InDayQuery(requests, b, dayStart, vehicleId) ==>
        !Overlaps(slots[k].start, slots[k].end, b.start, b.end))
    ensures vehicleId.None? ==> forall k :: 0 <= k < |slots| ==>
      (slots[k].available <==> exists v :: (v in vehicles && v.status == "ACTIVE" &&
        forall b :: b in bookings && InDayQuery(requests, b, dayStart, None) && b.vehicleId == v.id ==>
          !Overlaps(slots[k].start, slots[k].end, b.start, b.end)))
  {
    var dayBookings := DayBookings(bookings, requests, dayStart, vehicleId);
    if vehicleId.Some? {
      slots := SlotGridForVehicle(dayStart, dayBookings);
      forall k | 0 <= k < |slots|
        ensures slots[k].available <==> forall b :: b in bookings && InDayQuery(requests, b, dayStart, vehicleId) ==>
          !Overlaps(slots[k].start, slots[k].end, b.start, b.end)
      {
        if !slots[k].available {
          var d :| d in dayBookings && Overlaps(slots[k].start, slots[k].end, d.start, d.end);
          var b :| b in bookings && InDayQuery(requests, b, dayStart, vehicleId) && d == DayBooking(b.vehicleId, b.start, b.end);
        }
      }
    } else {
      var active := ActiveVehicles(vehicles);
      slots := SlotGridAnyVehicle(dayStart, dayBookings, active);
      forall k | 0 <= k < |slots|
        ensures slots[k].available <==> exists v :: (v in vehicles && v.status == "ACTIVE" &&
          forall b :: b in bookings && InDayQuery(requests, b, dayStart, None) && b.vehicleId == v.id ==>
            !Overlaps(slots[k].start, slots[k].end, b.start, b.end))
      {
        var s, e := slots[k].start, slots[k].end;
        if slots[k].available {
          var v :| v in active && forall d :: d in dayBookings && d.vehicleId == v.id ==> !Overlaps(s, e, d.start, d.end);
          forall b | b in bookings && InDayQuery(requests, b, dayStart, None) && b.vehicleId == v.id
            ensures !Overlaps(s, e, b.start, b.end)
          {
            assert DayBooking(b.vehicleId, b.start, b.end) in dayBookings;
          }
        } else {
          forall v | v in vehicles && v.status == "ACTIVE"
            ensures exists b :: b in bookings && InDayQuery(requests, b, dayStart, None) && b.vehicleId == v.id && Overlaps(s, e, b.start, b.end)
          {
            assert v in active;
            var d :| d in dayBookings && d.vehicleId == v.id && Overlaps(s, e, d.start, d.end);
            var b :| b in bookings && InDayQuery(requests, b, dayStart, None) && d == DayBooking(b.vehicleId, b.start, b.end);
          }
        }
      }
    }
  }

  /** `SELECT ... FROM vehicles WHERE status = 'ACTIVE'`. */
  function ActiveVehicles(vehicles: seq<Vehicle>): (r: seq<Vehicle>)
    ensures forall v :: v in r <==> v in vehicles && v.status == "ACTIVE"
  {
    if |vehicles| == 0 then []
    else if vehicles[0].status == "ACTIVE" then [vehicles[0]] + ActiveVehicles(vehicles[1..])
    else ActiveVehicles(vehicles[1..])
  }

  /** A booking that started the previous evening and runs into the morning is not seen by the day query. */
  lemma OvernightBookingNotInDayQuery(requests: seq<Request>, b: CarBooking, dayStart: int)
    requires b.start < dayStart < b.end
    ensures !InDayQuery(requests, b, dayStart, None)
    ensures Overlaps(dayStart + SlotStartMinute(0), dayStart + SlotStartMinute(0) + SlotMinutes, b.start, b.end) ==> dayStart + 360 < b.end
  {
  }
}
