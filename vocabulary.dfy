// The closed vocabularies of the project workflow: the status tokens of the
// three stages (backend/models/Project.js), the system types, the user roles
// and how a status badge is shown in the lists.
module Vocabulary {

  import opened Options

  // Clearance stage
  const PendingToApply := "pending_to_apply_clearance_application"
  const ClearanceApplied := "clearance_applied"
  const ClearanceApproved := "clearance_approved"
  const ClearanceRejected := "clearance_rejected"
  const CapacityReduced := "capacity_reduced"

  // Installation stage
  const ClearanceReceived := "clearance_received"
  const SiteVisitCompleted := "site_visit_completed"
  const PaymentReceived := "60_percent_payment_received"
  const OngoingInstallation := "ongoing_installation"
  const InstallationCompleted := "installation_completed"

  // Connection stage
  const DocumentSubmission := "document_submission"
  const EstimatePaid := "estimate_paid"
  const ConnectionComplete := "connection_complete"
  const Procedure := "procedure"

  const ClearanceStatuses: seq<string> :=
    [PendingToApply, ClearanceApplied, ClearanceApproved, ClearanceRejected, CapacityReduced]
  const InstallationStatuses: seq<string> :=
    [ClearanceReceived, SiteVisitCompleted, PaymentReceived, OngoingInstallation, InstallationCompleted]
  const ConnectionStatuses: seq<string> :=
    [DocumentSubmission, EstimatePaid, ConnectionComplete, Procedure]

  /** The 14 tokens of all three stages. */
  const AllStatuses: seq<string> := ClearanceStatuses + InstallationStatuses + ConnectionStatuses

  /** Schema defaults of the three stage statuses. */
  const DefaultClearanceStatus := PendingToApply
  const DefaultInstallationStatus := ClearanceReceived
  const DefaultConnectionStatus := DocumentSubmission

  const SystemTypes: seq<string> := ["on_grid", "off_grid", "hybrid"]

  /** The role carried by an authenticated user; anything else is `Other`. */
  datatype Role = TeamLeader | Assistant | TechnicalOfficer | Other

  /** The three workflow stages, in their intended order. */
  datatype Stage = Clearance | Installation | Connection

  /** What a list shows for a status token: a label (absent for an unknown
      token) and a CSS class. */
  datatype Badge = Badge(caption: Option<string>, cls: string)

  /** Every status belongs to exactly one stage vocabulary, and every
      vocabulary holds its own default. */
  lemma VocabulariesDisjoint()
    ensures forall s :: s in ClearanceStatuses ==> s !in InstallationStatuses && s !in ConnectionStatuses
    ensures forall s :: s in InstallationStatuses ==> s !in ConnectionStatuses
    ensures DefaultClearanceStatus in ClearanceStatuses
    ensures DefaultInstallationStatus in InstallationStatuses
    ensures DefaultConnectionStatus in ConnectionStatuses
    ensures |AllStatuses| == 14
  {
  }
}
