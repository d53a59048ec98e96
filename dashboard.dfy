/**
 * The dashboard's four figures. An admin's queries see every row; anyone
 * else's are scoped to rows whose `customer_id` is their own id. A request
 * that fails leaves its figure at 0, and with no signed-in user the initial
 * zeros stay.
 */
module Dashboard {
  import opened Wrappers
  import opened Rows
  import Backend

  datatype Stats = Stats(activeJobs: int, bookings: int, invoices: int, totalSpent: int)

  /** The state before any load. */
  const InitialStats: Stats := Stats(0, 0, 0, 0)

  /** Which of the three requests got an answer (`count` or `data` not null). */
  datatype Answered = Answered(jobs: bool, bookings: bool, invoices: bool)

  const AllAnswered: Answered := Answered(true, true, true)

  /** The reference sum of invoice totals. */
  function Sum(invoices: seq<Invoice>): (total: int)
    ensures (forall i :: 0 <= i < |invoices| ==> invoices[i].total >= 0) ==> total >= 0
  {
    if invoices == [] then 0 else invoices[0].total + Sum(invoices[1..])
  }

  /**
   * `invoices.reduce((sum, inv) => sum + inv.total, acc)`: a left fold, which
   * adds to the accumulator the same amount as the reference sum.
   */
  function FoldTotals(acc: int, invoices: seq<Invoice>): (r: int)
    ensures r == acc + Sum(invoices)
    decreases invoices
  {
    if invoices == [] then acc else FoldTotals(acc + invoices[0].total, invoices[1..])
  }

  /** The rows one query of `loadStats` sees. */
  function Scoped<T(!new)>(rows: seq<T>, owner: T -> UserId, user: UserId, admin: bool): (r: seq<T>)
    ensures admin ==> r == rows
    ensures !admin ==> forall x :: x in r <==> x in rows && owner(x) == user
  {
    if admin then rows else Filter(rows, OwnedBy(owner, user))
  }

  /** `userRole === 'admin'`. */
  predicate IsAdmin(role: Option<string>) {
    role == Some("admin")
  }

  /**
   * `loadStats` over the tables as they stand. Counts default to 0 and the
   * spending total is the fold of the scoped invoice totals, 0 when absent.
   */
  function LoadStats(user: Option<UserId>, role: Option<string>, jobOrders: seq<JobOrder>,
                     bookings: seq<RentalBooking>, invoices: seq<Invoice>, answered: Answered): (s: Stats)
    ensures user.None? ==> s == InitialStats
    ensures user.Some? ==>
      var admin := IsAdmin(role);
      && s.activeJobs == (if answered.jobs then |Scoped(jobOrders, JobOwner, user.value, admin)| else 0)
      && s.bookings == (if answered.bookings then |Scoped(bookings, BookingOwner, user.value, admin)| else 0)
      && s.invoices == (if answered.invoices then |Scoped(invoices, InvoiceOwner, user.value, admin)| else 0)
      && s.totalSpent == (if answered.invoices then Sum(Scoped(invoices, InvoiceOwner, user.value, admin)) else 0)
  {
    if user.None? then InitialStats
    else
      var admin := IsAdmin(role);
      var jobCount := if answered.jobs then Some(|Scoped(jobOrders, JobOwner, user.value, admin)|) else None;
      var bookingCount := if answered.bookings then Some(|Scoped(bookings, BookingOwner, user.value, admin)|) else None;
      var invoiceRows := if answered.invoices then Some(Scoped(invoices, InvoiceOwner, user.value, admin)) else None;
      var total := if invoiceRows.Some? then FoldTotals(0, invoiceRows.value) else 0;
      Stats(jobCount.GetOr(0), bookingCount.GetOr(0), if invoiceRows.Some? then |invoiceRows.value| else 0, total)
  }

  /** An admin's revenue is what the given customer spent plus what everybody else spent. */
  lemma {:induction false} RevenueSplitsByCustomer(invoices: seq<Invoice>, user: UserId)
    ensures Sum(invoices) == Sum(Filter(invoices, OwnedBy(InvoiceOwner, user)))
                           + Sum(Filter(invoices, (i: Invoice) => i.customerId != user))
  {
    if invoices != [] {
      RevenueSplitsByCustomer(invoices[1..], user);
    }
  }

  /** Status writes never change any figure: "active jobs" counts every job whatever its status. */
  lemma {:induction false} StatusUpdateKeepsOwnCount(jobs: seq<JobOrder>, id: Id, status: string, user: UserId)
    ensures |Filter(Backend.SetStatus(jobs, id, status), OwnedBy(JobOwner, user))|
         == |Filter(jobs, OwnedBy(JobOwner, user))|
  {
    if jobs != [] {
      var r := Backend.SetStatus(jobs, id, status);
      assert r[1..] == Backend.SetStatus(jobs[1..], id, status);
      StatusUpdateKeepsOwnCount(jobs[1..], id, status, user);
    }
  }

  lemma StatusUpdateKeepsStats(user: Option<UserId>, role: Option<string>, jobs: seq<JobOrder>,
                               bookings: seq<RentalBooking>, invoices: seq<Invoice>, answered: Answered,
                               id: Id, status: string)
    ensures LoadStats(user, role, Backend.SetStatus(jobs, id, status), bookings, invoices, answered)
         == LoadStats(user, role, jobs, bookings, invoices, answered)
  {
    if user.Some? {
      StatusUpdateKeepsOwnCount(jobs, id, status, user.value);
    }
  }

  /** A new job counts once for its customer and for an admin, and not at all for anyone else. */
  lemma NewJobCounted(user: UserId, role: Option<string>, jobs: seq<JobOrder>, j: JobOrder,
                      bookings: seq<RentalBooking>, invoices: seq<Invoice>)
    ensures var before := LoadStats(Some(user), role, jobs, bookings, invoices, AllAnswered);
            var after := LoadStats(Some(user), role, jobs + [j], bookings, invoices, AllAnswered);
            after.activeJobs == before.activeJobs + (if IsAdmin(role) || j.customerId == user then 1 else 0)
            && after.bookings == before.bookings && after.totalSpent == before.totalSpent
  {
    FilterAppend(jobs, [j], OwnedBy(JobOwner, user));
    assert Filter([j], OwnedBy(JobOwner, user)) == if j.customerId == user then [j] else [];
  }

  /** A customer with no rows anywhere sees four zeros. */
  lemma NewCustomerSeesZeros(user: UserId, role: Option<string>, jobs: seq<JobOrder>,
                             bookings: seq<RentalBooking>, invoices: seq<Invoice>, answered: Answered)
    requires !IsAdmin(role)
    requires forall j :: j in jobs ==> j.customerId != user
    requires forall b :: b in bookings ==> b.customerId != user
    requires forall i :: i in invoices ==> i.customerId != user
    ensures LoadStats(Some(user), role, jobs, bookings, invoices, answered) == InitialStats
  {
    FilterNone(jobs, OwnedBy(JobOwner, user));
    FilterNone(bookings, OwnedBy(BookingOwner, user));
    FilterNone(invoices, OwnedBy(InvoiceOwner, user));
  }
}
