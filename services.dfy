/**
 * The customer services page: the customer's own vehicles and job orders,
 * and the repair request handler, which writes a `received` job for the
 * signed-in customer and clears the form.
 */
module Services {
  import opened Wrappers
  import opened Rows
  import Backend

  /** `vehicles` filtered by `.eq('customer_id', user)`, in table order. */
  function OwnVehicles(vehicles: seq<Vehicle>, user: UserId): (r: seq<Vehicle>)
    ensures forall v :: v in r <==> v in vehicles && v.customerId == user
  {
    Filter(vehicles, OwnedBy(VehicleOwner, user))
  }

  /** `job_orders` of one customer, newest first. */
  function OwnJobs(jobs: seq<JobOrder>, user: UserId): (r: seq<JobOrder>)
    ensures forall j :: j in r <==> j in jobs && j.customerId == user
    ensures Increasing(jobs, JobCreated) ==> Decreasing(r, JobCreated)
  {
    NewestFirst(jobs, OwnedBy(JobOwner, user), JobCreated)
  }

  /** A job the page inserts: the chosen vehicle and description, the caller as customer, status `received`. */
  function ReceivedJob(id: Id, vehicleId: Id, user: UserId, description: string): (j: JobOrder)
    ensures j.status == "received" && j.customerId == user
    ensures j.vehicleId == vehicleId && j.description == description
  {
    JobOrder(id, vehicleId, user, description, "received", 0)
  }

  /** A request just submitted heads the customer's list once the page reloads. */
  lemma NewJobListedFirst(jobs: seq<JobOrder>, j: JobOrder, user: UserId)
    requires j.customerId == user
    ensures OwnJobs(jobs + [j], user) == [j] + OwnJobs(jobs, user)
  {
    NewestFirstAppend(jobs, j, OwnedBy(JobOwner, user), JobCreated);
  }

  /** The page state of `CustomerServicesPage` for a signed-in user. */
  class ServicesPage {
    const store: Backend.Store
    const user: UserId
    var vehicles: seq<Vehicle>
    var jobs: seq<JobOrder>
    var selectedVehicle: string
    var description: string
    var loading: bool
    var showForm: bool

    constructor(store: Backend.Store, user: UserId)
      ensures this.store == store && this.user == user
      ensures vehicles == [] && jobs == [] && selectedVehicle == "" && description == ""
      ensures !loading && !showForm
    {
      this.store, this.user := store, user;
      vehicles, jobs := [], [];
      selectedVehicle, description := "", "";
      loading, showForm := false, false;
    }

    /** `loadData`: each list is the query's rows, or empty when its request failed. */
    method LoadData(vehiclesAnswered: bool, jobsAnswered: bool)
      modifies this`vehicles, this`jobs
      ensures vehicles == if vehiclesAnswered then OwnVehicles(store.vehicles, user) else []
      ensures jobs == if jobsAnswered then OwnJobs(store.jobOrders, user) else []
      ensures forall v :: v in vehicles ==> v.customerId == user
      ensures forall j :: j in jobs ==> j.customerId == user
      ensures store.Valid() ==> Decreasing(jobs, JobCreated)
    {
      var vehiclesRes := if vehiclesAnswered then Some(OwnVehicles(store.vehicles, user)) else None;
      var jobsRes := if jobsAnswered then Some(OwnJobs(store.jobOrders, user)) else None;
      vehicles := vehiclesRes.GetOr([]);
      jobs := jobsRes.GetOr([]);
    }

    /**
     * `handleSubmit`. `newId` is the key the backend gives the row and
     * `insertOk` whether the insert reported no error. Returns whether
     * `loadData` is started afterwards.
     */
    method HandleSubmit(newId: Id, insertOk: bool) returns (reload: bool)
      requires store.Valid()
      modifies store, this`selectedVehicle, this`description, this`showForm, this`loading
      ensures store.Valid()
      ensures var filled := old(selectedVehicle) != "" && old(description) != "";
        && reload == (filled && insertOk)
        && loading == (if filled then false else old(loading))
      ensures reload ==> store.jobOrders == old(store.jobOrders) + [
        ReceivedJob(newId, old(selectedVehicle), user, old(description)).(createdAt := old(store.clock))]
      ensures !reload ==> store.jobOrders == old(store.jobOrders)
      ensures store.clock == old(store.clock) + (if reload then 1 else 0)
      ensures reload ==> description == "" && selectedVehicle == "" && !showForm
      ensures !reload ==> description == old(description) && selectedVehicle == old(selectedVehicle)
                          && showForm == old(showForm)
      ensures store.vehicles == old(store.vehicles) && store.rentalCars == old(store.rentalCars)
      ensures store.rentalBookings == old(store.rentalBookings) && store.invoices == old(store.invoices)
    {
      reload := false;
      if selectedVehicle == "" || description == "" {
        return;
      }
      loading := true;
      if insertOk {
        store.InsertJobOrder(ReceivedJob(newId, selectedVehicle, user, description));
        description := "";
        selectedVehicle := "";
        showForm := false;
        reload := true;
      }
      loading := false;
    }
  }
}
