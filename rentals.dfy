/**
 * The customer rentals page: the available-car and own-booking listings, the
 * booking price (whole days, rounded up, times the car's daily rate) and the
 * booking handler, which writes a `pending` booking and resets the form.
 */
module Rentals {
  import opened Wrappers
  import opened Rows
  import Backend

  /** One day in milliseconds: `1000 * 60 * 60 * 24`. */
  const DayMs: int := 1000 * 60 * 60 * 24

  /** `Math.ceil(a / b)` for a positive divisor, without relying on how `/` rounds negative numbers. */
  function CeilDiv(a: int, b: int): (q: int)
    requires b > 0
    ensures (q - 1) * b < a <= q * b
  {
    if a >= 0 then
      var q := (a + b - 1) / b;
      assert a + b - 1 == q * b + (a + b - 1) % b;
      q
    else
      var m := (-a) / b;
      assert -a == m * b + (-a) % b;
      -m
  }

  /** The bounds of `CeilDiv` pin down a single integer: it is the ceiling. */
  lemma CeilDivUnique(a: int, b: int, q: int)
    requires b > 0 && (q - 1) * b < a <= q * b
    ensures q == CeilDiv(a, b)
  {
  }

  /**
   * The rental length: the millisecond difference of the parsed dates, in
   * days, rounded up: the least whole number of days that covers the interval.
   */
  function RentalDays(startMs: int, endMs: int): (d: int)
    ensures startMs + (d - 1) * DayMs < endMs <= startMs + d * DayMs
  {
    CeilDiv(endMs - startMs, DayMs)
  }

  /** Index of the first car with id `carId` (`cars.find`), or `|cars|` when there is none. */
  function FindCar(cars: seq<RentalCar>, carId: Id): (i: nat)
    ensures i <= |cars|
    ensures forall k :: 0 <= k < i ==> cars[k].id != carId
    ensures i < |cars| ==> cars[i].id == carId
  {
    if cars == [] then 0
    else if cars[0].id == carId then 0
    else 1 + FindCar(cars[1..], carId)
  }

  /** `car?.daily_rate || 0`: the rate of the first listed car with that id, 0 when none is listed. */
  function DailyRate(cars: seq<RentalCar>, carId: Id): (rate: int)
    ensures (forall c :: c in cars ==> c.id != carId) ==> rate == 0
    ensures forall k :: (0 <= k < |cars| && cars[k].id == carId &&
                         forall m :: 0 <= m < k ==> cars[m].id != carId) ==> rate == cars[k].dailyRate
  {
    var i := FindCar(cars, carId);
    if i < |cars| then cars[i].dailyRate else 0
  }

  /**
   * `total_amount`: days times the rate of the selected car among those the
   * page listed. Whole-day intervals are priced at exactly their day count,
   * and at a positive rate the total is positive exactly when the end follows
   * the start.
   */
  function BookingTotal(cars: seq<RentalCar>, carId: Id, startMs: int, endMs: int): (total: int)
    ensures (endMs - startMs) % DayMs == 0 ==> total == (endMs - startMs) / DayMs * DailyRate(cars, carId)
    ensures DailyRate(cars, carId) > 0 ==> (total > 0 <==> endMs > startMs)
  {
    var n := (endMs - startMs) / DayMs;
    assert endMs - startMs == n * DayMs + (endMs - startMs) % DayMs;
    WholeDays(startMs, n);
    PositiveDaysIffLater(startMs, endMs);
    RentalDays(startMs, endMs) * DailyRate(cars, carId)
  }

  /** The day count is positive exactly when the end follows the start. */
  lemma PositiveDaysIffLater(startMs: int, endMs: int)
    ensures RentalDays(startMs, endMs) > 0 <==> endMs > startMs
  {
  }

  /** `rental_cars` filtered by `.eq('available', true)`. */
  function IsAvailable(c: RentalCar): bool { c.available }

  function AvailableCars(cars: seq<RentalCar>): (r: seq<RentalCar>)
    ensures forall c :: c in r <==> c in cars && c.available
    ensures |r| <= |cars|
  {
    Filter(cars, IsAvailable)
  }

  /** `rental_bookings` of one customer, newest first. */
  function OwnBookings(bookings: seq<RentalBooking>, user: UserId): (r: seq<RentalBooking>)
    ensures forall b :: b in r <==> b in bookings && b.customerId == user
    ensures Increasing(bookings, BookingCreated) ==> Decreasing(r, BookingCreated)
  {
    NewestFirst(bookings, OwnedBy(BookingOwner, user), BookingCreated)
  }

  /** Dates a whole number of days apart (calendar dates parse to midnight) give exactly that many days. */
  lemma WholeDays(startMs: int, n: int)
    ensures RentalDays(startMs, startMs + n * DayMs) == n
  {
  }

  /** A car that is not in the listed cars is priced at 0, whatever the dates. */
  lemma MissingCarCostsNothing(cars: seq<RentalCar>, carId: Id, startMs: int, endMs: int)
    requires forall c :: c in cars ==> c.id != carId
    ensures BookingTotal(cars, carId, startMs, endMs) == 0
  {
  }

  /** Nothing checks that the end follows the start: equal dates cost 0 ... */
  lemma SameDayCostsNothing(cars: seq<RentalCar>, carId: Id, ms: int)
    ensures BookingTotal(cars, carId, ms, ms) == 0
  {
    WholeDays(ms, 0);
  }

  /** ... and an end date a day or more before the start gives a negative total at a positive rate. */
  lemma ReversedDatesCostNegative(cars: seq<RentalCar>, carId: Id, startMs: int, endMs: int)
    requires endMs <= startMs - DayMs
    requires DailyRate(cars, carId) > 0
    ensures BookingTotal(cars, carId, startMs, endMs) < 0
  {
  }

  /** 2024-01-01 to 2024-01-04 at 5000 a day: 3 days, 15000. */
  lemma ThreeDayExample(car: RentalCar)
    requires car.dailyRate == 5000
    ensures RentalDays(1704067200000, 1704326400000) == 3
    ensures BookingTotal([car], car.id, 1704067200000, 1704326400000) == 15000
  {
  }

  /** A booking the page inserts: the submitted car and dates, the computed total, status `pending`. */
  function PendingBooking(id: Id, user: UserId, carId: Id, startDate: string, endDate: string, total: int)
    : (b: RentalBooking)
    ensures b.status == "pending" && b.customerId == user && b.totalAmount == total
    ensures b.carId == carId && b.startDate == startDate && b.endDate == endDate
  {
    RentalBooking(id, carId, user, startDate, endDate, total, "pending", 0)
  }

  /** The page state of `CustomerRentalsPage` for a signed-in user. */
  class RentalsPage {
    const store: Backend.Store
    const user: UserId
    var cars: seq<RentalCar>
    var bookings: seq<RentalBooking>
    var selectedCar: string
    var startDate: string
    var endDate: string
    var loading: bool
    var showForm: bool

    constructor(store: Backend.Store, user: UserId)
      ensures this.store == store && this.user == user
      ensures cars == [] && bookings == []
      ensures selectedCar == "" && startDate == "" && endDate == ""
      ensures !loading && !showForm
    {
      this.store, this.user := store, user;
      cars, bookings := [], [];
      selectedCar, startDate, endDate := "", "", "";
      loading, showForm := false, false;
    }

    /** `loadData`: each list is the query's rows, or empty when its request failed. */
    method LoadData(carsAnswered: bool, bookingsAnswered: bool)
      modifies this`cars, this`bookings
      ensures cars == if carsAnswered then AvailableCars(store.rentalCars) else []
      ensures bookings == if bookingsAnswered then OwnBookings(store.rentalBookings, user) else []
      ensures forall c :: c in cars ==> c.available
      ensures store.Valid() ==> Decreasing(bookings, BookingCreated)
    {
      var carsRes := if carsAnswered then Some(AvailableCars(store.rentalCars)) else None;
      var bookingsRes := if bookingsAnswered then Some(OwnBookings(store.rentalBookings, user)) else None;
      cars := carsRes.GetOr([]);
      bookings := bookingsRes.GetOr([]);
    }

    /**
     * `handleBooking`. `startMs` and `endMs` are the parsed form dates, `newId`
     * the key the backend gives the row and `insertOk` whether the insert
     * reported no error. Returns whether `loadData` is started afterwards.
     */
    method HandleBooking(startMs: int, endMs: int, newId: Id, insertOk: bool) returns (reload: bool)
      requires store.Valid()
      modifies store, this`selectedCar, this`startDate, this`endDate, this`showForm, this`loading
      ensures store.Valid()
      ensures var filled := old(selectedCar) != "" && old(startDate) != "" && old(endDate) != "";
        && reload == (filled && insertOk)
        && loading == (if filled then false else old(loading))
      ensures reload ==> store.rentalBookings == old(store.rentalBookings) + [
        PendingBooking(newId, user, old(selectedCar), old(startDate), old(endDate),
                       BookingTotal(cars, old(selectedCar), startMs, endMs)).(createdAt := old(store.clock))]
      ensures !reload ==> store.rentalBookings == old(store.rentalBookings)
      ensures store.clock == old(store.clock) + (if reload then 1 else 0)
      ensures reload ==> selectedCar == "" && startDate == "" && endDate == "" && !showForm
      ensures !reload ==> selectedCar == old(selectedCar) && startDate == old(startDate)
                          && endDate == old(endDate) && showForm == old(showForm)
      ensures store.vehicles == old(store.vehicles) && store.jobOrders == old(store.jobOrders)
      ensures store.rentalCars == old(store.rentalCars) && store.invoices == old(store.invoices)
    {
      reload := false;
      if selectedCar == "" || startDate == "" || endDate == "" {
        return;
      }
      loading := true;
      var days := RentalDays(startMs, endMs);
      var totalAmount := days * DailyRate(cars, selectedCar);
      if insertOk {
        store.InsertRentalBooking(PendingBooking(newId, user, selectedCar, startDate, endDate, totalAmount));
        selectedCar := "";
        startDate := "";
        endDate := "";
        showForm := false;
        reload := true;
      }
      loading := false;
    }
  }

  /** A booking just made heads the customer's list once the page reloads. */
  lemma NewBookingListedFirst(bookings: seq<RentalBooking>, b: RentalBooking, user: UserId)
    requires b.customerId == user
    ensures OwnBookings(bookings + [b], user) == [b] + OwnBookings(bookings, user)
  {
    NewestFirstAppend(bookings, b, OwnedBy(BookingOwner, user), BookingCreated);
  }

  /** Another customer's booking leaves the list unchanged. */
  lemma OthersBookingNotListed(bookings: seq<RentalBooking>, b: RentalBooking, user: UserId)
    requires b.customerId != user
    ensures OwnBookings(bookings + [b], user) == OwnBookings(bookings, user)
  {
    NewestFirstAppend(bookings, b, OwnedBy(BookingOwner, user), BookingCreated);
  }
}
