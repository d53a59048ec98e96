/**
 * The backend's tables as in-memory sequences. Every write is one atomic
 * step; a failed request (an `error` in the reply) is modelled by the caller
 * not performing the write. Rows are kept in creation order: `clock` is the
 * `created_at` stamp the next inserted row receives.
 */
module Backend {
  import opened Rows

  /** `.update(patch).eq('id', id)`: every row the test matches is patched in place; the others stay. */
  function UpdateWhere<T>(rows: seq<T>, matches: T -> bool, patch: T -> T): (r: seq<T>)
    ensures |r| == |rows|
    ensures forall i :: 0 <= i < |rows| ==> r[i] == if matches(rows[i]) then patch(rows[i]) else rows[i]
  {
    if rows == [] then []
    else [if matches(rows[0]) then patch(rows[0]) else rows[0]] + UpdateWhere(rows[1..], matches, patch)
  }

  /** The `status` column of `job_orders`, on every row with that id. */
  function SetStatus(jobs: seq<JobOrder>, id: Id, status: string): (r: seq<JobOrder>)
    ensures |r| == |jobs|
    ensures forall i :: 0 <= i < |jobs| ==>
      r[i] == if jobs[i].id == id then jobs[i].(status := status) else jobs[i]
  {
    UpdateWhere(jobs, (j: JobOrder) => j.id == id, (j: JobOrder) => j.(status := status))
  }

  /** The `available` column of `rental_cars`, on every row with that id. */
  function SetAvailable(cars: seq<RentalCar>, id: Id, available: bool): (r: seq<RentalCar>)
    ensures |r| == |cars|
    ensures forall i :: 0 <= i < |cars| ==>
      r[i] == if cars[i].id == id then cars[i].(available := available) else cars[i]
  {
    UpdateWhere(cars, (c: RentalCar) => c.id == id, (c: RentalCar) => c.(available := available))
  }

  /** Every stamp in the table is below `clock`, and stamps increase. */
  ghost predicate Stamped<T>(s: seq<T>, key: T -> int, clock: int) {
    Increasing(s, key) && forall i :: 0 <= i < |s| ==> key(s[i]) < clock
  }

  lemma StampedAppend<T>(s: seq<T>, x: T, key: T -> int, clock: int)
    requires Stamped(s, key, clock) && key(x) == clock
    ensures Stamped(s + [x], key, clock + 1)
  {
  }

  class Store {
    var vehicles: seq<Vehicle>
    var jobOrders: seq<JobOrder>
    var rentalCars: seq<RentalCar>
    var rentalBookings: seq<RentalBooking>
    var invoices: seq<Invoice>
    var clock: int

    /** Tables with a `created_at` column are in creation order. */
    ghost predicate Valid()
      reads this
    {
      && Stamped(jobOrders, JobCreated, clock)
      && Stamped(rentalCars, CarCreated, clock)
      && Stamped(rentalBookings, BookingCreated, clock)
    }

    /** A backend holding pre-existing vehicles and invoices, and no job, car or booking yet. */
    constructor(vehicles: seq<Vehicle>, invoices: seq<Invoice>)
      ensures Valid()
      ensures this.vehicles == vehicles && this.invoices == invoices
      ensures jobOrders == [] && rentalCars == [] && rentalBookings == []
    {
      this.vehicles := vehicles;
      this.invoices := invoices;
      jobOrders, rentalCars, rentalBookings := [], [], [];
      clock := 0;
    }

    method InsertJobOrder(row: JobOrder)
      requires Valid()
      modifies this`jobOrders, this`clock
      ensures Valid() && clock == old(clock) + 1
      ensures jobOrders == old(jobOrders) + [row.(createdAt := old(clock))]
    {
      StampedAppend(jobOrders, row.(createdAt := clock), JobCreated, clock);
      jobOrders := jobOrders + [row.(createdAt := clock)];
      clock := clock + 1;
    }

    method InsertRentalCar(row: RentalCar)
      requires Valid()
      modifies this`rentalCars, this`clock
      ensures Valid() && clock == old(clock) + 1
      ensures rentalCars == old(rentalCars) + [row.(createdAt := old(clock))]
    {
      StampedAppend(rentalCars, row.(createdAt := clock), CarCreated, clock);
      rentalCars := rentalCars + [row.(createdAt := clock)];
      clock := clock + 1;
    }

    method InsertRentalBooking(row: RentalBooking)
      requires Valid()
      modifies this`rentalBookings, this`clock
      ensures Valid() && clock == old(clock) + 1
      ensures rentalBookings == old(rentalBookings) + [row.(createdAt := old(clock))]
    {
      StampedAppend(rentalBookings, row.(createdAt := clock), BookingCreated, clock);
      rentalBookings := rentalBookings + [row.(createdAt := clock)];
      clock := clock + 1;
    }

    method UpdateJobStatus(id: Id, status: string)
      requires Valid()
      modifies this`jobOrders
      ensures Valid()
      ensures jobOrders == SetStatus(old(jobOrders), id, status)
    {
      jobOrders := SetStatus(jobOrders, id, status);
    }

    method UpdateCarAvailability(id: Id, available: bool)
      requires Valid()
      modifies this`rentalCars
      ensures Valid()
      ensures rentalCars == SetAvailable(old(rentalCars), id, available)
    {
      rentalCars := SetAvailable(rentalCars, id, available);
    }
  }
}
