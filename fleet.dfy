/**
 * The admin fleet page: every rental car newest first, the add-car form
 * (a new car is always available) and the availability toggle, which writes
 * the negation of the flag the page last showed.
 */
module Fleet {
  import opened Rows
  import Backend

  /** The add-car form's fields. */
  datatype CarForm = CarForm(make: string, model: string, year: int, carType: string, dailyRate: int, licensePlate: string)

  /** The form's initial and reset contents: empty text, the current year, rate 0. */
  function EmptyForm(currentYear: int): (f: CarForm)
    ensures f.make == "" && f.model == "" && f.carType == "" && f.licensePlate == ""
    ensures f.year == currentYear && f.dailyRate == 0
  {
    CarForm("", "", currentYear, "", 0, "")
  }

  /** `{ ...formData, available: true }`: the form's fields, available whatever the form says. */
  function NewCar(id: Id, form: CarForm): (c: RentalCar)
    ensures c.available
    ensures c.make == form.make && c.model == form.model && c.year == form.year
    ensures c.carType == form.carType && c.dailyRate == form.dailyRate && c.licensePlate == form.licensePlate
  {
    RentalCar(id, form.make, form.model, form.year, form.carType, form.dailyRate, form.licensePlate, true, 0)
  }

  /** Toggling with the flag the page showed, then again with the flag written, restores the table. */
  lemma ToggleTwiceRestores(cars: seq<RentalCar>, id: Id, shown: bool)
    requires forall k :: 0 <= k < |cars| && cars[k].id == id ==> cars[k].available == shown
    ensures Backend.SetAvailable(Backend.SetAvailable(cars, id, !shown), id, shown) == cars
  {
  }

  /** The toggle changes only `available`, and only on cars with that id. */
  lemma ToggleTouchesOnlyAvailability(cars: seq<RentalCar>, id: Id, flag: bool, k: nat)
    requires k < |cars|
    ensures var r := Backend.SetAvailable(cars, id, flag);
            r[k].(available := cars[k].available) == cars[k]
            && (cars[k].id != id ==> r[k] == cars[k])
            && (cars[k].id == id ==> r[k].available == flag)
  {
  }

  /** The page state of `AdminFleetPage`. */
  class FleetPage {
    const store: Backend.Store
    var cars: seq<RentalCar>
    var showForm: bool
    var formData: CarForm

    constructor(store: Backend.Store, currentYear: int)
      ensures this.store == store && cars == [] && !showForm && formData == EmptyForm(currentYear)
    {
      this.store := store;
      cars, showForm := [], false;
      formData := EmptyForm(currentYear);
    }

    /** `loadCars`: every car, newest first, or empty when the request failed. */
    method LoadCars(answered: bool)
      modifies this`cars
      ensures cars == if answered then Reverse(store.rentalCars) else []
      ensures forall c :: c in cars ==> c in store.rentalCars
      ensures answered ==> |cars| == |store.rentalCars|
      ensures store.Valid() ==> Decreasing(cars, CarCreated)
    {
      if answered {
        ReverseMembers(store.rentalCars);
        if store.Valid() {
          ReverseDecreasing(store.rentalCars, CarCreated);
        }
        cars := Reverse(store.rentalCars);
      } else {
        cars := [];
      }
    }

    /**
     * `handleSubmit`: inserts the form as an available car; on success the
     * form is reset (with the year the clock gives) and closed, and
     * `loadCars` is started; on error the form keeps its contents.
     */
    method HandleSubmit(newId: Id, currentYear: int, insertOk: bool) returns (reload: bool)
      requires store.Valid()
      modifies store, this`formData, this`showForm
      ensures store.Valid() && reload == insertOk
      ensures store.clock == old(store.clock) + (if insertOk then 1 else 0)
      ensures insertOk ==> store.rentalCars == old(store.rentalCars)
                             + [NewCar(newId, old(formData)).(createdAt := old(store.clock))]
      ensures !insertOk ==> store.rentalCars == old(store.rentalCars)
      ensures insertOk ==> formData == EmptyForm(currentYear) && !showForm
      ensures !insertOk ==> formData == old(formData) && showForm == old(showForm)
      ensures store.vehicles == old(store.vehicles) && store.jobOrders == old(store.jobOrders)
      ensures store.rentalBookings == old(store.rentalBookings) && store.invoices == old(store.invoices)
    {
      reload := false;
      if insertOk {
        store.InsertRentalCar(NewCar(newId, formData));
        formData := EmptyForm(currentYear);
        showForm := false;
        reload := true;
      }
    }

    /**
     * `toggleAvailability(carId, currentStatus)`: writes `!currentStatus`,
     * the negation of the flag the page showed, to every car with that id.
     */
    method ToggleAvailability(carId: Id, currentStatus: bool, updateOk: bool) returns (reload: bool)
      requires store.Valid()
      modifies store
      ensures store.Valid() && reload == updateOk && store.clock == old(store.clock)
      ensures store.rentalCars == if updateOk then Backend.SetAvailable(old(store.rentalCars), carId, !currentStatus)
                                  else old(store.rentalCars)
      ensures store.vehicles == old(store.vehicles) && store.jobOrders == old(store.jobOrders)
      ensures store.rentalBookings == old(store.rentalBookings) && store.invoices == old(store.invoices)
    {
      reload := false;
      if updateOk {
        store.UpdateCarAvailability(carId, !currentStatus);
        reload := true;
      }
    }
  }
}
