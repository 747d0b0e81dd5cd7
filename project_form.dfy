// The project form of frontend/src/components/ProjectForm.jsx: the stage
// gates, the single-stage updates the form applies locally or sends to the
// server, and the stage labels.
module ProjectForm {

  import opened Options
  import opened Vocabulary
  import opened ProjectModel
  import opened ProjectRoutes

  /** The signed-in user, when there is one. */
  datatype User = User(id: UserId, role: Role)

  /** The basic fields as the form's inputs hold them. */
  datatype Basics = Basics(
    projectNumber: string,
    name: string,
    location: string,
    systemType: string,
    size: string,
    inverter: string,
    pvPanel: string,
    battery: string,
    assignedTechnicalOfficer: string)

  /** The `formData` state. */
  datatype Form = Form(
    basics: Basics,
    clearance: ClearanceRecord,
    installation: WorkRecord,
    connection: WorkRecord)

  /** `user?.role`. */
  function RoleOf(user: Option<User>): Option<Role> {
    if user.Some? then Some(user.value.role) else None
  }

  /** `user?.id`. */
  function IdOf(user: Option<User>): Option<UserId> {
    if user.Some? then Some(user.value.id) else None
  }

  /** Installation opens to team leaders and technical officers once
      clearance is approved, or once installation has left its default. */
  predicate CanEditInstallation(user: Option<User>, f: Form) {
    RoleOf(user) in [Some(TeamLeader), Some(TechnicalOfficer)]
    && (f.clearance.status == ClearanceApproved || f.installation.status != ClearanceReceived)
  }

  /** Connection opens to all three roles once installation is completed. */
  predicate CanEditConnection(user: Option<User>, f: Form) {
    RoleOf(user) in [Some(TeamLeader), Some(Assistant), Some(TechnicalOfficer)]
    && f.installation.status == InstallationCompleted
  }

  /** The clearance step buttons respond to team leaders and assistants. */
  predicate CanEditClearance(user: Option<User>) {
    RoleOf(user) in [Some(TeamLeader), Some(Assistant)]
  }

  predicate IsProjectCompleted(f: Form) {
    f.connection.status == ConnectionComplete
  }

  /** The check `handleStepChange` and `quickUpdateStep` make before acting:
      installation and connection are gated, clearance is not. */
  predicate StepAllowed(user: Option<User>, f: Form, step: Stage) {
    match step
    case Clearance => true
    case Installation => CanEditInstallation(user, f)
    case Connection => CanEditConnection(user, f)
  }

  /** Whether choosing `status` for `step` stamps a date, and which. */
  predicate StampsApplied(step: Stage, status: string) {
    step == Clearance && status == ClearanceApplied
  }

  predicate StampsReceived(step: Stage, status: string) {
    step == Clearance && status == ClearanceApproved
  }

  predicate StampsCompleted(step: Stage, status: string) {
    (step == Installation && status == InstallationCompleted)
    || (step == Connection && status == ConnectionComplete)
  }

  /** The `updateData` object both handlers build: the status, the user and
      now, and the one date the status calls for. */
  function StepUpdate(step: Stage, status: string, user: Option<User>, now: nat): StagePatch {
    StagePatch(
      Some(status),
      if StampsApplied(step, status) then Some(Some(now)) else None,
      if StampsReceived(step, status) then Some(Some(now)) else None,
      if StampsCompleted(step, status) then Some(Some(now)) else None,
      Some(IdOf(user)),
      Some(Some(now)))
  }

  /** Builds `updateData` key by key, as both handlers do. */
  method BuildStepUpdate(step: Stage, status: string, user: Option<User>, now: nat) returns (u: StagePatch)
    ensures u == StepUpdate(step, status, user, now)
  {
    u := StagePatch(Some(status), None, None, None, Some(IdOf(user)), Some(Some(now)));
    if step == Clearance {
      if status == ClearanceApplied {
        u := u.(appliedDate := Some(Some(now)));
      } else if status == ClearanceApproved {
        u := u.(receivedDate := Some(Some(now)));
      }
    } else if step == Installation && status == InstallationCompleted {
      u := u.(completedDate := Some(Some(now)));
    } else if step == Connection && status == ConnectionComplete {
      u := u.(completedDate := Some(Some(now)));
    }
  }

  /** `{...prev, [step]: {...prev[step], ...u}}`. */
  function WithStep(f: Form, step: Stage, u: StagePatch): Form {
    match step
    case Clearance => f.(clearance := OverlayClearance(f.clearance, u))
    case Installation => f.(installation := OverlayWork(f.installation, u))
    case Connection => f.(connection := OverlayWork(f.connection, u))
  }

  /** The schema path of a stage. */
  function PathOf(step: Stage): Path {
    match step
    case Clearance => ClearancePath
    case Installation => InstallationPath
    case Connection => ConnectionPath
  }

  /** The body `quickUpdateStep` sends: `{[step]: u}`. */
  function QuickBody(step: Stage, u: StagePatch): (b: Fields)
    ensures forall k :: Has(b, k) <==> k == PathOf(step)
  {
    match step
    case Clearance => NoFields.(clearance := Some(u))
    case Installation => NoFields.(installation := Some(u))
    case Connection => NoFields.(connection := Some(u))
  }

  /** The editing page's state. */
  class FormState {
    var formData: Form
    var user: Option<User>

    constructor (user: Option<User>, formData: Form)
      ensures this.user == user && this.formData == formData
    {
      this.user := user;
      this.formData := formData;
    }

    /** `handleStepChange(step, status)`. */
    method HandleStepChange(step: Stage, status: string, now: nat)
      modifies this
      ensures user == old(user)
      ensures !StepAllowed(user, old(formData), step) ==> formData == old(formData)
      ensures StepAllowed(user, old(formData), step) ==>
        formData == WithStep(old(formData), step, StepUpdate(step, status, user, now))
    {
      if step == Installation && !CanEditInstallation(user, formData) {
        return;
      }
      if step == Connection && !CanEditConnection(user, formData) {
        return;
      }
      var u := BuildStepUpdate(step, status, user, now);
      formData := WithStep(formData, step, u);
    }

    /** The request `quickUpdateStep(step, status)` would send, or `None` when
        the gate refuses it. */
    method QuickUpdateStep(step: Stage, status: string, now: nat) returns (request: Option<Fields>)
      ensures request.None? <==> !StepAllowed(user, formData, step)
      ensures request.Some? ==> request.value == QuickBody(step, StepUpdate(step, status, user, now))
      ensures request.Some? ==> forall k :: Has(request.value, k) <==> k == PathOf(step)
    {
      if step == Installation && !CanEditInstallation(user, formData) {
        return None;
      }
      if step == Connection && !CanEditConnection(user, formData) {
        return None;
      }
      var u := BuildStepUpdate(step, status, user, now);
      request := Some(QuickBody(step, u));
    }

    /** After the server answers: `{...prev, [step]: response.data[step]}`. */
    method ApplyQuickResponse(step: Stage, saved: Project)
      modifies this
      ensures user == old(user) && formData.basics == old(formData).basics
      ensures formData.clearance == if step == Clearance then saved.clearance else old(formData).clearance
      ensures formData.installation == if step == Installation then saved.installation else old(formData).installation
      ensures formData.connection == if step == Connection then saved.connection else old(formData).connection
    {
      match step
      case Clearance => formData := formData.(clearance := saved.clearance);
      case Installation => formData := formData.(installation := saved.installation);
      case Connection => formData := formData.(connection := saved.connection);
    }
  }

  /** What the gates mean for each role: without a user or a known role no
      gate opens; an assistant never edits installation and a technical
      officer never edits clearance; a team leader passes every gate any
      other user passes; and an open installation gate on a completed
      installation opens the connection gate too. */
  lemma GateRoles(user: Option<User>, other: User, f: Form)
    ensures user.None? || user.value.role == Other ==>
      !CanEditInstallation(user, f) && !CanEditConnection(user, f) && !CanEditClearance(user)
    ensures user.Some? && user.value.role == Assistant ==> !CanEditInstallation(user, f)
    ensures user.Some? && user.value.role == TechnicalOfficer ==> !CanEditClearance(user)
    ensures user.Some? && user.value.role == TeamLeader ==>
      && (CanEditInstallation(Some(other), f) ==> CanEditInstallation(user, f))
      && (CanEditConnection(Some(other), f) ==> CanEditConnection(user, f))
      && (CanEditClearance(Some(other)) ==> CanEditClearance(user))
    ensures CanEditInstallation(user, f) && f.installation.status == InstallationCompleted ==>
      CanEditConnection(user, f)
  {
  }

  /** A permitted step change sets the stage's status, user and time,
      stamps exactly the date its status calls for, keeps every other date,
      and leaves the other two stages and the basic fields alone. */
  lemma StepChangeEffect(f: Form, step: Stage, status: string, user: Option<User>, now: nat)
    ensures var g := WithStep(f, step, StepUpdate(step, status, user, now));
      && g.basics == f.basics
      && (step != Clearance ==> g.clearance == f.clearance)
      && (step != Installation ==> g.installation == f.installation)
      && (step != Connection ==> g.connection == f.connection)
      && (step == Clearance ==>
            && g.clearance.status == status && g.clearance.updatedBy == IdOf(user) && g.clearance.updatedAt == Some(now)
            && g.clearance.appliedDate == (if status == ClearanceApplied then Some(now) else f.clearance.appliedDate)
            && g.clearance.receivedDate == (if status == ClearanceApproved then Some(now) else f.clearance.receivedDate))
      && (step == Installation ==>
            && g.installation.status == status && g.installation.updatedBy == IdOf(user) && g.installation.updatedAt == Some(now)
            && g.installation.completedDate == (if status == InstallationCompleted then Some(now) else f.installation.completedDate))
      && (step == Connection ==>
            && g.connection.status == status && g.connection.updatedBy == IdOf(user) && g.connection.updatedAt == Some(now)
            && g.connection.completedDate == (if status == ConnectionComplete then Some(now) else f.connection.completedDate))
  {
  }

  /** The completion banner follows the connection stage alone: only a
      connection step can switch it, and a permitted one can switch it on
      only once installation is completed. */
  lemma CompletionFollowsConnection(f: Form, step: Stage, status: string, user: Option<User>, now: nat)
    ensures var g := WithStep(f, step, StepUpdate(step, status, user, now));
      && (IsProjectCompleted(g) <==> if step == Connection then status == ConnectionComplete else IsProjectCompleted(f))
      && (StepAllowed(user, f, step) && IsProjectCompleted(g) && !IsProjectCompleted(f) ==>
            f.installation.status == InstallationCompleted)
  {
  }

  /** Installation stays shut to a technical officer until clearance is
      approved, and connection to everyone until installation completes. */
  lemma GatesBlockEarlyStages(f: Form, user: Option<User>)
    ensures f.clearance.status != ClearanceApproved && f.installation.status == ClearanceReceived
      ==> !StepAllowed(user, f, Installation)
    ensures f.installation.status != InstallationCompleted ==> !StepAllowed(user, f, Connection)
    ensures StepAllowed(user, f, Clearance)
  {
  }

  /** The client's own date stamping agrees with the server's hook: the
      client stamps exactly the trigger dates, and running the pre-save hook
      over a stored project with the client's update applied, at the same
      time, stamps nothing the client did not already stamp. */
  lemma ClientStampsLikeHook(p: Project, step: Stage, status: string, user: Option<User>, now: nat)
    ensures var u := StepUpdate(step, status, user, now);
      && (u.appliedDate.Some? <==> step == Clearance && status == ClearanceApplied)
      && (u.receivedDate.Some? <==> step == Clearance && status == ClearanceApproved)
      && (u.completedDate.Some? <==>
            (step == Installation && status == InstallationCompleted) || (step == Connection && status == ConnectionComplete))
    ensures var u := StepUpdate(step, status, user, now);
      var q := match step
        case Clearance => p.(clearance := OverlayClearance(p.clearance, u))
        case Installation => p.(installation := OverlayWork(p.installation, u))
        case Connection => p.(connection := OverlayWork(p.connection, u));
      Stamped(StatusesOf(p), q, now) == q
  {
  }

  /** A quick update the form's gates let through lands on the server as the
      chosen status of that one stage, and nothing outside that stage
      changes. An assistant or a technical officer merges into the stored
      stage; a team leader's stage object replaces it, so the stage then
      holds only what the update carries. */
  lemma QuickUpdateOnServer(p: Project, f: Form, step: Stage, status: string, user: User, now: nat, serverNow: nat)
    requires step == Clearance ==> CanEditClearance(Some(user))
    requires step == Installation ==> CanEditInstallation(Some(user), f)
    requires step == Connection ==> CanEditConnection(Some(user), f)
    ensures var e := Edited(p, user.role, user.id, QuickBody(step, StepUpdate(step, status, Some(user), now)), serverNow);
      && e.(clearance := p.clearance, installation := p.installation, connection := p.connection) == p
      && (step == Clearance ==> e.clearance.status == status && e.installation == p.installation && e.connection == p.connection)
      && (step == Installation ==> e.installation.status == status && e.clearance == p.clearance && e.connection == p.connection)
      && (step == Connection ==> e.connection.status == status && e.clearance == p.clearance && e.installation == p.installation)
    ensures var e := Edited(p, user.role, user.id, QuickBody(step, StepUpdate(step, status, Some(user), now)), serverNow);
      user.role == TeamLeader ==>
        && (step == Clearance ==> e.clearance == ClearanceRecord(status,
              if status == ClearanceApplied then Some(now) else None,
              if status == ClearanceApproved then Some(now) else None,
              Some(user.id), Some(now)))
        && (step == Installation ==> e.installation == WorkRecord(status,
              if status == InstallationCompleted then Some(now) else None, Some(user.id), Some(now)))
        && (step == Connection ==> e.connection == WorkRecord(status,
              if status == ConnectionComplete then Some(now) else None, Some(user.id), Some(now)))
  {
  }

  /** A team leader's quick approval of clearance loses the date the
      clearance was applied for: the update object does not carry it, the
      stage is replaced, and the hook stamps only `receivedDate`. */
  lemma LeaderQuickApprovalDropsAppliedDate(docs: map<ProjectId, Project>, id: ProjectId, leader: UserId, now: nat, serverNow: nat)
    requires id in docs && Conforms(docs[id]) && UniqueNumbers(docs)
    requires docs[id].clearance.status == ClearanceApplied && docs[id].clearance.appliedDate.Some?
    ensures var body := QuickBody(Clearance, StepUpdate(Clearance, ClearanceApproved, Some(User(leader, TeamLeader)), now));
      var r := PutReply(docs, id, TeamLeader, leader, body, serverNow);
      && r.Updated?
      && r.project.clearance.status == ClearanceApproved
      && r.project.clearance.receivedDate == Some(serverNow)
      && r.project.clearance.appliedDate.None?
  {
  }

  /** A stage option: its token and the label shown for it. */
  datatype StepOption = StepOption(value: string, caption: string)

  const ClearanceSteps: seq<StepOption> := [
    StepOption(PendingToApply, "Pending to Apply"),
    StepOption(ClearanceApplied, "Applied"),
    StepOption(ClearanceApproved, "Approved"),
    StepOption(ClearanceRejected, "Rejected"),
    StepOption(CapacityReduced, "Capacity Reduced")]

  const InstallationSteps: seq<StepOption> := [
    StepOption(ClearanceReceived, "Clearance Received"),
    StepOption(SiteVisitCompleted, "Site Visit Completed"),
    StepOption(PaymentReceived, "60% Payment Received"),
    StepOption(OngoingInstallation, "Ongoing Installation"),
    StepOption(InstallationCompleted, "Installation Completed")]

  const ConnectionSteps: seq<StepOption> := [
    StepOption(DocumentSubmission, "Document Submission"),
    StepOption(EstimatePaid, "Estimate Paid"),
    StepOption(ConnectionComplete, "Connection Complete"),
    StepOption(Procedure, "Procedure")]

  /** `steps[stepType]`. */
  function StepOptions(stepType: string): Option<seq<StepOption>> {
    if stepType == "clearance" then Some(ClearanceSteps)
    else if stepType == "installation" then Some(InstallationSteps)
    else if stepType == "connection" then Some(ConnectionSteps)
    else None
  }

  /** `options.find(s => s.value === value)`: the first option with that
      token. */
  function Find(options: seq<StepOption>, value: string): (r: Option<nat>)
    ensures r.None? <==> forall i :: 0 <= i < |options| ==> options[i].value != value
    ensures r.Some? ==>
      && r.value < |options| && options[r.value].value == value
      && forall i :: 0 <= i < r.value ==> options[i].value != value
  {
    if options == [] then None
    else if options[0].value == value then Some(0)
    else match Find(options[1..], value)
      case None => None
      case Some(i) => Some(i + 1)
  }

  /** `getStepLabel(stepType, value)`: the label found, or the raw value. */
  function StepLabel(stepType: string, value: string): (shown: string)
    ensures || shown == value
            || (&& StepOptions(stepType).Some?
                && exists i :: 0 <= i < |StepOptions(stepType).value|
                     && StepOptions(stepType).value[i].value == value
                     && StepOptions(stepType).value[i].caption == shown)
  {
    match StepOptions(stepType)
    case None => value
    case Some(options) =>
      match Find(options, value)
      case None => value
      case Some(i) => if options[i].caption != "" then options[i].caption else value
  }

  /** Every token of a stage gets that stage's table label; a token outside
      the table, or a stage name outside the three, comes back as is. */
  lemma StepLabelLookup(stepType: string, value: string)
    ensures stepType == "clearance" ==>
      forall i :: 0 <= i < |ClearanceSteps| ==> StepLabel(stepType, ClearanceSteps[i].value) == ClearanceSteps[i].caption
    ensures stepType == "installation" ==>
      forall i :: 0 <= i < |InstallationSteps| ==> StepLabel(stepType, InstallationSteps[i].value) == InstallationSteps[i].caption
    ensures stepType == "connection" ==>
      forall i :: 0 <= i < |ConnectionSteps| ==> StepLabel(stepType, ConnectionSteps[i].value) == ConnectionSteps[i].caption
    ensures StepOptions(stepType).None? ==> StepLabel(stepType, value) == value
    ensures StepOptions(stepType).Some?
      && (forall i :: 0 <= i < |StepOptions(stepType).value| ==> StepOptions(stepType).value[i].value != value)
      ==> StepLabel(stepType, value) == value
  {
    if stepType == "clearance" {
      TableLabels(stepType, ClearanceSteps);
    } else if stepType == "installation" {
      TableLabels(stepType, InstallationSteps);
    } else if stepType == "connection" {
      TableLabels(stepType, ConnectionSteps);
    }
  }

  /** Within one table every token is listed once and every label is
      non-empty, so each token finds its own row. */
  lemma TableLabels(stepType: string, options: seq<StepOption>)
    requires StepOptions(stepType) == Some(options)
    requires forall i, j :: 0 <= i < j < |options| ==> options[i].value != options[j].value
    requires forall i :: 0 <= i < |options| ==> options[i].caption != ""
    ensures forall i :: 0 <= i < |options| ==> StepLabel(stepType, options[i].value) == options[i].caption
  {
    forall i | 0 <= i < |options|
      ensures StepLabel(stepType, options[i].value) == options[i].caption
    {
      var r := Find(options, options[i].value);
      assert r.Some? && r.value == i;
    }
  }
}
