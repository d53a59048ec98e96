/**
 * The admin job-orders page: a newest-first list of all jobs, optionally
 * narrowed to one status, and a per-row menu that writes a new status. No
 * transition is refused: any status may follow any other.
 */
module AdminJobs {
  import opened Rows
  import Backend
  import StatusColors

  /** The row test of `.eq('status', status)`. */
  function HasStatus(status: string): (p: JobOrder -> bool)
    ensures forall j :: p(j) <==> j.status == status
  {
    (j: JobOrder) => j.status == status
  }

  /** `loadJobs`: newest first; every job when no status is selected, else exactly the jobs in that status. */
  function JobsView(jobs: seq<JobOrder>, selectedStatus: string): (r: seq<JobOrder>)
    ensures forall j :: j in r <==> j in jobs && (selectedStatus == "" || j.status == selectedStatus)
    ensures selectedStatus == "" ==> |r| == |jobs|
    ensures Increasing(jobs, JobCreated) ==> Decreasing(r, JobCreated)
  {
    if selectedStatus == "" then
      ReverseMembers(jobs);
      AllJobsNewestFirst(jobs);
      Reverse(jobs)
    else NewestFirst(jobs, HasStatus(selectedStatus), JobCreated)
  }

  lemma AllJobsNewestFirst(jobs: seq<JobOrder>)
    ensures Increasing(jobs, JobCreated) ==> Decreasing(Reverse(jobs), JobCreated)
  {
  }

  /** The statuses the row menu offers as new values. */
  const ActionStatuses: seq<string> := ["diagnosis", "in_progress", "completed", "cancelled"]

  /** The row menu: a placeholder carrying the current status, then the four action statuses. */
  function StatusMenu(current: string): (options: seq<string>)
    ensures |options| == 5 && options[0] == current
    ensures forall k :: 1 <= k < |options| ==> options[k] in StatusColors.JobStatuses - {"received"}
  {
    [current] + ActionStatuses
  }

  /** Writing through the menu keeps every job's status among the five job statuses. */
  lemma MenuKeepsKnownStatuses(jobs: seq<JobOrder>, id: Id, current: string, choice: string)
    requires forall k :: 0 <= k < |jobs| ==> jobs[k].status in StatusColors.JobStatuses
    requires current in StatusColors.JobStatuses
    requires choice in StatusMenu(current)
    ensures forall k :: 0 <= k < |jobs| ==> Backend.SetStatus(jobs, id, choice)[k].status in StatusColors.JobStatuses
  {
  }

  /** Any job with the id ends in the new status, whatever it was in before, terminal states included. */
  lemma AnyTransitionAllowed(jobs: seq<JobOrder>, k: nat, status: string)
    requires k < |jobs|
    ensures Backend.SetStatus(jobs, jobs[k].id, status)[k] == jobs[k].(status := status)
  {
  }

  /** A received job can be completed and then cancelled: no terminal-state guard. */
  lemma CompletedThenCancelled(j: JobOrder)
    requires j.status == "received"
    ensures var done := Backend.SetStatus([j], j.id, "completed");
            done == [j.(status := "completed")]
            && Backend.SetStatus(done, j.id, "cancelled") == [j.(status := "cancelled")]
  {
  }

  /** The page state of `AdminJobsPage`. */
  class AdminJobsPage {
    const store: Backend.Store
    var jobs: seq<JobOrder>
    var selectedStatus: string
    var loading: bool

    constructor(store: Backend.Store)
      ensures this.store == store && jobs == [] && selectedStatus == "" && !loading
    {
      this.store := store;
      jobs, selectedStatus, loading := [], "", false;
    }

    /** `loadJobs`: the filtered list, or empty when the request failed (`data || []`). */
    method LoadJobs(answered: bool)
      modifies this`jobs
      ensures jobs == if answered then JobsView(store.jobOrders, selectedStatus) else []
      ensures store.Valid() ==> Decreasing(jobs, JobCreated)
    {
      if answered {
        jobs := JobsView(store.jobOrders, selectedStatus);
      } else {
        jobs := [];
      }
    }

    /** Choosing a filter; the effect on `selectedStatus` then runs `LoadJobs`. */
    method SelectStatus(status: string)
      modifies this`selectedStatus
      ensures selectedStatus == status
    {
      selectedStatus := status;
    }

    /**
     * `updateStatus`: `loading` is raised for the request and lowered again
     * whether it succeeded or failed; on success every job with `jobId` gets
     * `newStatus` and `loadJobs` is started (the result `reload`).
     */
    method UpdateStatus(jobId: Id, newStatus: string, updateOk: bool) returns (reload: bool)
      requires store.Valid()
      modifies store, this`loading
      ensures store.Valid() && !loading && reload == updateOk && store.clock == old(store.clock)
      ensures store.jobOrders == if updateOk then Backend.SetStatus(old(store.jobOrders), jobId, newStatus)
                                 else old(store.jobOrders)
      ensures store.vehicles == old(store.vehicles) && store.rentalCars == old(store.rentalCars)
      ensures store.rentalBookings == old(store.rentalBookings) && store.invoices == old(store.invoices)
    {
      loading := true;
      if updateOk {
        store.UpdateJobStatus(jobId, newStatus);
      }
      reload := updateOk;
      loading := false;
    }
  }
}
