# Femisayo Autos: the business rules of the repair and rental pages

Femisayo Autos is a small web application for a car-repair and car-rental business.
Customers file repair requests and book rental cars. Staff (role `admin`) move job orders
through their statuses and manage the rental fleet. A dashboard counts jobs, bookings and
invoices and sums invoice totals. The pages pass their queries straight to a hosted table
store. This project pulls the rules out of those pages into one in-memory model:

- `Backend.Store` is a class that holds the five tables (`vehicles`, `job_orders`,
  `rental_cars`, `rental_bookings`, `invoices`) as sequences. Tables with a `created_at`
  column are kept in creation order (`Store.Valid`), so a query ordered by `created_at`
  descending is the reverse of the filtered table (`Rows.NewestFirst`).
- Each page is a class. Its fields are the page's state hooks. Its methods are the
  page's event handlers, and each handler runs as one atomic step against the shared store.
- The outcome of every request is a parameter: whether an insert or update reported
  an error, and whether a fetch answered. The same goes for the id the backend gives a
  new row, the parsed dates of a booking form and the current year.
- A handler that calls `loadData()` without awaiting it returns `reload = true`. The
  page's `Load…` method models that reload as a separate step.
- The pure rules are functions with lemmas beside them: the booking price, the
  status-colour tables, the dashboard figures and the route guard.

Modules: `Wrappers` (Option), `Rows` (row types, `Filter`, `Reverse`, `NewestFirst`),
`Backend` (the store), `StatusColors`, `Rentals`, `Services`, `AdminJobs`, `Fleet`,
`Dashboard`, `App`.

The pages enforce fewer rules than a reader might expect; the model follows the code:

- Updating a job or toggling a car whose id is unknown matches no row. It reports no
  error and changes nothing. It does not fail with "not found".
- A booking is not refused when the end date is on or before the start date.
- A job order is not refused when the vehicle is missing or belongs to someone else.
- A customer is not refused an admin-only write by these handlers. Only the route
  guard hides the admin pages.

## Model

| member | source | states |
|---|---|---|
| Rentals.CeilDiv | src/pages/CustomerRentalsPage.tsx:58 | `Math.ceil(a / b)` for a positive divisor: the result q satisfies (q-1)·b < a ≤ q·b, for negative a too |
| Rentals.CeilDivUnique | src/pages/CustomerRentalsPage.tsx:58 | those bounds admit one integer only, so `CeilDiv` is exactly the ceiling |
| Rentals.RentalDays | src/pages/CustomerRentalsPage.tsx:56-58 | the day count is the least whole number of days that covers end − start (`Math.ceil` of the difference in days) |
| Rentals.BookingTotal | src/pages/CustomerRentalsPage.tsx:58-61 | dates exactly n days apart are priced at n times the listed daily rate; at a positive rate the total is positive exactly when the end follows the start |
| Rentals.WholeDays | src/pages/CustomerRentalsPage.tsx:56-58 | dates exactly n days apart give n days, for any n, negative n included |
| Rentals.FindCar | src/pages/CustomerRentalsPage.tsx:60 | `cars.find`: the index of the first car with the id, or the length when none has it |
| Rentals.DailyRate | src/pages/CustomerRentalsPage.tsx:60-61 | `car?.daily_rate \|\| 0`: the first matching car's rate, 0 when no listed car has the id |
| Rentals.MissingCarCostsNothing | src/pages/CustomerRentalsPage.tsx:60-61 | a car id missing from the loaded list gives total 0 whatever the dates |
| Rentals.SameDayCostsNothing | src/pages/CustomerRentalsPage.tsx:58-61 | equal start and end dates give total 0: nothing checks that end follows start |
| Rentals.ReversedDatesCostNegative | src/pages/CustomerRentalsPage.tsx:58-61 | an end at least a day before the start gives a negative total at a positive rate |
| Rentals.ThreeDayExample | src/pages/CustomerRentalsPage.tsx:56-61 | 2024-01-01 to 2024-01-04 at 5000 a day is 3 days and 15000 |
| Rentals.AvailableCars | src/pages/CustomerRentalsPage.tsx:43 | the offered cars are exactly the cars with `available = true` |
| Rentals.OwnBookings | src/pages/CustomerRentalsPage.tsx:44 | the listed bookings are exactly the user's own, newest first |
| Rentals.PendingBooking | src/pages/CustomerRentalsPage.tsx:63-70 | the booking row carries status `pending`, the user as customer, and the submitted car, dates and total |
| Rentals.RentalsPage.constructor | src/pages/CustomerRentalsPage.tsx:28-35 | empty lists, empty form fields, not loading, form closed |
| Rentals.RentalsPage.LoadData | src/pages/CustomerRentalsPage.tsx:41-48 | each list is its query's rows, or empty when the request failed; every offered car is available; bookings newest first |
| Rentals.RentalsPage.HandleBooking | src/pages/CustomerRentalsPage.tsx:50-83 | nothing is written unless car, start and end are all non-empty. Otherwise a `pending` row is appended, priced days × rate. On success the form is cleared and closed. On error the form and store stay as they were. `loading` ends false. Other tables are unchanged |
| Rentals.NewBookingListedFirst | src/pages/CustomerRentalsPage.tsx:44 | a booking just made by the user heads their list after the reload |
| Rentals.OthersBookingNotListed | src/pages/CustomerRentalsPage.tsx:44 | another customer's booking never shows in the user's list |
| StatusColors.BookingStatusColor | src/pages/CustomerRentalsPage.tsx:85-94 | grey exactly for strings that are not one of the five booking statuses; every result is one of the table's colours or grey |
| StatusColors.BookingColorsDistinct | src/pages/CustomerRentalsPage.tsx:86-92 | the five booking statuses get five different colours |
| StatusColors.JobStatusColor | src/pages/AdminJobsPage.tsx:49-58 | grey exactly for strings that are not one of the five job statuses. The same table appears at src/pages/CustomerServicesPage.tsx:70-79 |
| StatusColors.JobColorsDistinct | src/pages/CustomerServicesPage.tsx:70-79 | the five job statuses get five different colours |
| StatusColors.SharedStatusesAgree | src/pages/AdminJobsPage.tsx:49-58 | `in_progress`, `completed` and `cancelled` get the same colour in the job and booking tables |
| Services.OwnVehicles | src/pages/CustomerServicesPage.tsx:39 | the listed vehicles are exactly the user's own |
| Services.OwnJobs | src/pages/CustomerServicesPage.tsx:40 | the listed jobs are exactly the user's own, newest first |
| Services.ReceivedJob | src/pages/CustomerServicesPage.tsx:52-57 | the job row has status `received`, the user as customer, and the chosen vehicle and description |
| Services.NewJobListedFirst | src/pages/CustomerServicesPage.tsx:40 | a request just filed heads the user's list after the reload |
| Services.ServicesPage.constructor | src/pages/CustomerServicesPage.tsx:24-30 | empty lists, empty form, not loading, form closed |
| Services.ServicesPage.LoadData | src/pages/CustomerServicesPage.tsx:37-44 | each list is its query's rows, or empty on failure; only the user's rows; jobs newest first |
| Services.ServicesPage.HandleSubmit | src/pages/CustomerServicesPage.tsx:46-68 | nothing is written when the vehicle or description is empty. Otherwise a `received` job for the user is appended. On success the description and vehicle are cleared and the form closes. On error the form and store are unchanged. `loading` ends false |
| AdminJobs.JobsView | src/pages/AdminJobsPage.tsx:25-34 | newest first; with no status selected, every job; otherwise exactly the jobs whose status equals the selection |
| AdminJobs.StatusMenu | src/pages/AdminJobsPage.tsx:107-113 | the placeholder carries the current status; the other four options are job statuses other than `received` |
| AdminJobs.MenuKeepsKnownStatuses | src/pages/AdminJobsPage.tsx:107-113 | a write chosen from the menu keeps every job's status among the five job statuses |
| AdminJobs.AnyTransitionAllowed | src/pages/AdminJobsPage.tsx:36-47 | any status can be written over any other, terminal ones included |
| AdminJobs.CompletedThenCancelled | src/pages/AdminJobsPage.tsx:39 | a received job can be completed and then cancelled |
| AdminJobs.AdminJobsPage.constructor | src/pages/AdminJobsPage.tsx:17-19 | no jobs, no status selected, not loading |
| AdminJobs.AdminJobsPage.LoadJobs | src/pages/AdminJobsPage.tsx:25-34 | the list is `JobsView` of the table, or empty when the request failed; newest first |
| AdminJobs.AdminJobsPage.SelectStatus | src/pages/AdminJobsPage.tsx:65 | choosing a filter sets the selected status |
| AdminJobs.AdminJobsPage.UpdateStatus | src/pages/AdminJobsPage.tsx:36-47 | on success every job with the id gets the new status and nothing else changes. On error the store is untouched. `loading` is false afterwards either way |
| Backend.UpdateWhere | src/pages/AdminJobsPage.tsx:39 | an `.update(patch).eq('id', id)`: every row keeps its place; matching rows are patched, the others are unchanged. The same query shape is at src/pages/AdminFleetPage.tsx:63 |
| Backend.SetStatus | src/pages/AdminJobsPage.tsx:39 | each job keeps its place; a job with the id gets the new status and nothing else; every other job is unchanged |
| Backend.SetAvailable | src/pages/AdminFleetPage.tsx:63 | each car keeps its place; a car with the id gets the new flag and nothing else; every other car is unchanged |
| Backend.Store.InsertJobOrder | src/pages/CustomerServicesPage.tsx:52-57 | appends the row stamped with the next `created_at`; creation order is kept |
| Backend.Store.InsertRentalCar | src/pages/AdminFleetPage.tsx:41-44 | appends the row stamped with the next `created_at`; creation order is kept |
| Backend.Store.InsertRentalBooking | src/pages/CustomerRentalsPage.tsx:63-70 | appends the row stamped with the next `created_at`; creation order is kept |
| Backend.Store.UpdateJobStatus | src/pages/AdminJobsPage.tsx:39 | the job table becomes `SetStatus` of the old one |
| Backend.Store.UpdateCarAvailability | src/pages/AdminFleetPage.tsx:63 | the car table becomes `SetAvailable` of the old one |
| Fleet.EmptyForm | src/pages/AdminFleetPage.tsx:20-27 | empty text fields, the current year, rate 0 |
| Fleet.NewCar | src/pages/AdminFleetPage.tsx:41-44 | the new car has the form's fields and is available, whatever the form holds |
| Fleet.ToggleTwiceRestores | src/pages/AdminFleetPage.tsx:61-63 | toggling with the shown flag, then with the written flag, restores the table |
| Fleet.ToggleTouchesOnlyAvailability | src/pages/AdminFleetPage.tsx:63 | a toggle changes only `available`, and only on cars with that id |
| Fleet.FleetPage.constructor | src/pages/AdminFleetPage.tsx:18-27 | no cars, form closed, empty form for the current year |
| Fleet.FleetPage.LoadCars | src/pages/AdminFleetPage.tsx:33-36 | every car newest first, or empty when the request failed |
| Fleet.FleetPage.HandleSubmit | src/pages/AdminFleetPage.tsx:38-59 | appends the form as an available car. On success the form resets and closes. On error the form keeps its contents and the store is unchanged |
| Fleet.FleetPage.ToggleAvailability | src/pages/AdminFleetPage.tsx:61-69 | on success every car with the id gets `!currentStatus`; on error the store is unchanged |
| Dashboard.Sum | src/pages/DashboardPage.tsx:27 | the reference sum of invoice totals; it is non-negative when every total is |
| Dashboard.FoldTotals | src/pages/DashboardPage.tsx:41 | the `reduce` left fold (also used at line 27) from an accumulator equals the accumulator plus the reference sum |
| Dashboard.Scoped | src/pages/DashboardPage.tsx:20-24 | an admin's query sees every row; anyone else's sees exactly the rows with their own `customer_id` |
| Dashboard.LoadStats | src/pages/DashboardPage.tsx:9-52 | no user: all four figures 0. Otherwise each figure is its scoped row count, or 0 when its request failed. The spending figure is the sum of the scoped invoice totals, or 0 |
| Dashboard.RevenueSplitsByCustomer | src/pages/DashboardPage.tsx:27 | the admin's revenue is one customer's spending plus everybody else's |
| Dashboard.StatusUpdateKeepsOwnCount | src/pages/DashboardPage.tsx:36 | a status write never changes how many jobs a customer has |
| Dashboard.StatusUpdateKeepsStats | src/pages/DashboardPage.tsx:22 | "active jobs" counts every job whatever its status, so a status write changes no figure |
| Dashboard.NewJobCounted | src/pages/DashboardPage.tsx:22 | a new job adds one to its customer's count and to an admin's, and nothing to anyone else's |
| Dashboard.NewCustomerSeesZeros | src/pages/DashboardPage.tsx:35-47 | a customer with no rows anywhere sees four zeros |
| App.ProtectedRoute | src/App.tsx:12-20 | the children render exactly when not loading, a user exists, and any required role matches. Loading wins over everything. A redirect goes to `/login` exactly when there is no user, else to `/dashboard` |
| App.RouteTable | src/App.tsx:29-64 | exactly `/admin/jobs` and `/admin/fleet` require a role, and that role is `admin`; only login and register are unguarded |
| App.AdminPagesOnlyForAdmins | src/App.tsx:51-61 | on any path, an admin page shows only to a signed-in `admin` whose session has loaded |
| App.CustomerPagesForAnyUser | src/App.tsx:33-49 | every signed-in user reaches the dashboard, services and rentals pages, whatever the role |
| App.LoadingComesFirst | src/App.tsx:15 | while the session loads, every guarded path shows the loading view |
| App.RootGoesToDashboard | src/App.tsx:63 | `/` redirects to `/dashboard` |
| App.RedirectsSettle | src/App.tsx:15-19 | following redirects from any path reaches a non-redirect screen within two steps |

## Left out

- The hosted store's client library, its query builder, row-level security and the
  concurrent `Promise.all` requests. Tables are sequences and each handler is one atomic
  step. A request's success is a parameter.
- Rendering, CSS, icons, `toLocaleString` and `toLocaleDateString` formatting, and the
  router's navigation mechanics. The route table and the guard's decision are modelled.
- Date parsing. `new Date(...).getTime()` of the two form dates enters `HandleBooking`
  as integer milliseconds. An unparsable date, which gives `NaN`, is not modelled.
- Floating-point arithmetic. Rates, totals and dates are integers, and the division by a
  day is an exact ceiling division. JavaScript's `-0` reads as 0.
- Rentals.RentalsPage.HandleBooking: the interval during which `loading` is true
  (while the insert is in flight) is not observable in an atomic step. Only the final
  `false` is stated.
- AdminJobs.AdminJobsPage.UpdateStatus: as for `HandleBooking`, only the final
  `loading = false` is stated, not the `true` while the request runs.
- `Number(inv.total)` coercion. Totals are integers. A non-numeric total would turn the
  sum into `NaN`, and `|| 0` would then make the whole figure 0. That is not modelled.
- Dashboard.LoadStats: a failed count and a count of zero both give 0, as in the source.
  The backend's row cap on `data` (which bounds the invoice count) is not modelled.
- StatusColors.BookingStatusColor and StatusColors.JobStatusColor: keys that a JavaScript
  object inherits from `Object.prototype` (`toString`, `constructor`, …) are looked up
  as non-colour values in the source. The model returns grey for them.
- The signed-in user is a fixed `user` of each customer page. The protected route
  guarantees that one exists. The `user?.id` of an absent user is not modelled.
- The `rental_cars(*)`, `vehicles(...)` and `profiles(full_name)` joins of the listings.
  They only decorate rows for display.
- The `useEffect` reload timing and `console.error` logging.
- `showForm` toggling by the page's buttons, and the form fields' change handlers.
- The login and registration pages and the navigation menu. They wrap an authentication
  context that is not part of this model and hold no business rule.
- The database's primary-key uniqueness. An update writes every row whose id matches,
  as `.update(...).eq('id', id)` does.
