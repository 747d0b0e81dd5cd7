// The status badge of frontend/src/components/Dashboard.jsx: every status
// token falls into one of four progress categories.
module Dashboard {

  import opened Options
  import opened Vocabulary

  /** `statusMap`: the category of each status token. */
  const Categories: map<string, string> := map[
    PendingToApply := "Pending",
    ClearanceApplied := "In Progress",
    ClearanceApproved := "Completed",
    ClearanceRejected := "Rejected",
    CapacityReduced := "In Progress",
    ClearanceReceived := "Pending",
    SiteVisitCompleted := "In Progress",
    PaymentReceived := "In Progress",
    OngoingInstallation := "In Progress",
    InstallationCompleted := "Completed",
    DocumentSubmission := "Pending",
    EstimatePaid := "In Progress",
    ConnectionComplete := "Completed",
    Procedure := "In Progress"]

  /** The badge class of each category. */
  const CategoryClasses: map<string, string> := map[
    "Pending" := "badge-pending",
    "In Progress" := "badge-in-progress",
    "Completed" := "badge-completed",
    "Rejected" := "badge-rejected"]

  /** `getStatusBadge(status)`: the category when the token is known, and its
      class, falling back to `badge-pending`. */
  function DashboardBadge(status: string): (b: Badge)
    ensures b.cls in ["badge-pending", "badge-in-progress", "badge-completed", "badge-rejected"]
    ensures b.caption.Some? ==> b.caption.value in CategoryClasses
  {
    var caption := if status in Categories then Some(Categories[status]) else None;
    var cls := if caption.Some? && caption.value in CategoryClasses then CategoryClasses[caption.value] else "badge-pending";
    Badge(caption, cls)
  }

  /** Each of the fourteen tokens falls into exactly one of the four
      categories; an unknown token has no category and the pending class. */
  lemma CategoriesTotal(status: string)
    ensures status in AllStatuses <==> DashboardBadge(status).caption.Some?
    ensures status in AllStatuses ==>
      DashboardBadge(status).caption.value in ["Pending", "In Progress", "Completed", "Rejected"]
    ensures status !in AllStatuses ==> DashboardBadge(status) == Badge(None, "badge-pending")
  {
  }

  /** Only the three stage milestones count as completed, only a rejected
      clearance as rejected, and every stage starts out pending. */
  lemma CategoryMeaning(status: string)
    ensures DashboardBadge(status).caption == Some("Completed") <==>
      status in [ClearanceApproved, InstallationCompleted, ConnectionComplete]
    ensures DashboardBadge(status).caption == Some("Rejected") <==> status == ClearanceRejected
    ensures status in [DefaultClearanceStatus, DefaultInstallationStatus, DefaultConnectionStatus] ==>
      DashboardBadge(status) == Badge(Some("Pending"), "badge-pending")
  {
  }
}
