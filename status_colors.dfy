/**
 * The status badge colours. Each page looks the status up in a five-entry
 * table and falls back to grey: `colors[status] || '#6b7280'`. The job table
 * is written out identically on the admin jobs page and on the customer
 * services page; it is defined once here.
 */
module StatusColors {

  const DefaultColor: string := "#6b7280"

  const BookingStatuses: set<string> := {"pending", "confirmed", "in_progress", "completed", "cancelled"}
  const JobStatuses: set<string> := {"received", "diagnosis", "in_progress", "completed", "cancelled"}

  const BookingColors: map<string, string> := map[
    "pending" := "#f59e0b",
    "confirmed" := "#3b82f6",
    "in_progress" := "#8b5cf6",
    "completed" := "#10b981",
    "cancelled" := "#ef4444"]

  const JobColors: map<string, string> := map[
    "received" := "#3b82f6",
    "diagnosis" := "#f59e0b",
    "in_progress" := "#8b5cf6",
    "completed" := "#10b981",
    "cancelled" := "#ef4444"]

  /** `colors[status] || DefaultColor`: an absent key or an empty colour falls back to grey. */
  function Lookup(colors: map<string, string>, status: string): string {
    if status in colors && colors[status] != "" then colors[status] else DefaultColor
  }

  /** The colour of a rental booking's status badge. */
  function BookingStatusColor(status: string): (c: string)
    ensures c == DefaultColor <==> status !in BookingStatuses
    ensures c in BookingColors.Values + {DefaultColor}
  {
    Lookup(BookingColors, status)
  }

  /** The colour of a job order's status badge. */
  function JobStatusColor(status: string): (c: string)
    ensures c == DefaultColor <==> status !in JobStatuses
    ensures c in JobColors.Values + {DefaultColor}
  {
    Lookup(JobColors, status)
  }

  /** The five booking statuses get five different colours. */
  lemma BookingColorsDistinct(s: string, t: string)
    requires s in BookingStatuses && t in BookingStatuses && s != t
    ensures BookingStatusColor(s) != BookingStatusColor(t)
  {
  }

  /** The five job statuses get five different colours. */
  lemma JobColorsDistinct(s: string, t: string)
    requires s in JobStatuses && t in JobStatuses && s != t
    ensures JobStatusColor(s) != JobStatusColor(t)
  {
  }

  /** A status both lifecycles know has one colour in both tables. */
  lemma SharedStatusesAgree(s: string)
    requires s in BookingStatuses * JobStatuses
    ensures BookingStatusColor(s) == JobStatusColor(s)
  {
  }
}
