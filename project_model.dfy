// The project document of backend/models/Project.js: its fields, the
// schema's validators and defaults, the partial objects the schema accepts,
// and the pre-save hook that stamps stage dates.
module ProjectModel {

  import opened Options
  import opened Vocabulary

  /** User ids are opaque ObjectId strings. */
  type UserId = string

  /** A date field: a timestamp, or unset. */
  type Stamp = Option<nat>

  datatype ClearanceRecord = ClearanceRecord(
    status: string,
    appliedDate: Stamp,
    receivedDate: Stamp,
    updatedBy: Option<UserId>,
    updatedAt: Stamp)

  /** The installation and the connection stage have the same shape. */
  datatype WorkRecord = WorkRecord(
    status: string,
    completedDate: Stamp,
    updatedBy: Option<UserId>,
    updatedAt: Stamp)

  datatype Project = Project(
    projectNumber: string,
    name: string,
    location: string,
    systemType: string,
    size: int,
    inverter: string,
    pvPanel: string,
    battery: Option<string>,
    assignedTechnicalOfficer: Option<UserId>,
    clearance: ClearanceRecord,
    installation: WorkRecord,
    connection: WorkRecord,
    createdBy: UserId,
    createdAt: nat)

  /** A plain stage object: every key may be missing (outer `None`); a present
      date or user key may hold `null` (inner `None`). Keys that no stage
      schema declares are not represented. */
  datatype StagePatch = StagePatch(
    status: Option<string>,
    appliedDate: Option<Stamp>,
    receivedDate: Option<Stamp>,
    completedDate: Option<Stamp>,
    updatedBy: Option<Option<UserId>>,
    updatedAt: Option<Stamp>)

  /** A plain project object, as a request body carries it: every schema path
      may be missing. A `null` required string is not told apart from a
      missing one: the required validator rejects both. */
  datatype Fields = Fields(
    projectNumber: Option<string>,
    name: Option<string>,
    location: Option<string>,
    systemType: Option<string>,
    size: Option<int>,
    inverter: Option<string>,
    pvPanel: Option<string>,
    battery: Option<string>,
    assignedTechnicalOfficer: Option<Option<UserId>>,
    clearance: Option<StagePatch>,
    installation: Option<StagePatch>,
    connection: Option<StagePatch>,
    createdBy: Option<UserId>)

  /** The empty object `{}`. */
  const NoFields := Fields(None, None, None, None, None, None, None, None, None, None, None, None, None)

  /** The top-level paths of the schema, in declaration order. */
  datatype Path =
    | ProjectNumberPath | NamePath | LocationPath | SystemTypePath | SizePath
    | InverterPath | PvPanelPath | BatteryPath | OfficerPath
    | ClearancePath | InstallationPath | ConnectionPath | CreatedByPath

  const AllPaths: seq<Path> :=
    [ProjectNumberPath, NamePath, LocationPath, SystemTypePath, SizePath,
     InverterPath, PvPanelPath, BatteryPath, OfficerPath,
     ClearancePath, InstallationPath, ConnectionPath, CreatedByPath]

  /** Whether `f` carries the key `path`. */
  predicate Has(f: Fields, path: Path) {
    match path
    case ProjectNumberPath => f.projectNumber.Some?
    case NamePath => f.name.Some?
    case LocationPath => f.location.Some?
    case SystemTypePath => f.systemType.Some?
    case SizePath => f.size.Some?
    case InverterPath => f.inverter.Some?
    case PvPanelPath => f.pvPanel.Some?
    case BatteryPath => f.battery.Some?
    case OfficerPath => f.assignedTechnicalOfficer.Some?
    case ClearancePath => f.clearance.Some?
    case InstallationPath => f.installation.Some?
    case ConnectionPath => f.connection.Some?
    case CreatedByPath => f.createdBy.Some?
  }

  function KeysFrom(f: Fields, paths: seq<Path>): (keys: seq<Path>)
    ensures forall k :: k in keys <==> k in paths && Has(f, k)
  {
    if paths == [] then []
    else (if Has(f, paths[0]) then [paths[0]] else []) + KeysFrom(f, paths[1..])
  }

  /** `Object.keys(f)`: the keys `f` carries, each once. */
  function Keys(f: Fields): (keys: seq<Path>)
    ensures forall k :: k in keys <==> Has(f, k)
  {
    KeysFrom(f, AllPaths)
  }

  /** `{...c, ...patch}` on a clearance record: present keys win, missing keys
      keep the stored value, and `completedDate`, which the clearance schema
      lacks, is dropped. */
  function OverlayClearance(c: ClearanceRecord, patch: StagePatch): ClearanceRecord {
    ClearanceRecord(
      patch.status.GetOr(c.status),
      patch.appliedDate.GetOr(c.appliedDate),
      patch.receivedDate.GetOr(c.receivedDate),
      patch.updatedBy.GetOr(c.updatedBy),
      patch.updatedAt.GetOr(c.updatedAt))
  }

  /** `{...w, ...patch}` on an installation or connection record. */
  function OverlayWork(w: WorkRecord, patch: StagePatch): WorkRecord {
    WorkRecord(
      patch.status.GetOr(w.status),
      patch.completedDate.GetOr(w.completedDate),
      patch.updatedBy.GetOr(w.updatedBy),
      patch.updatedAt.GetOr(w.updatedAt))
  }

  /** A fresh clearance stage: the default status and `updatedAt` now. */
  function NewClearance(now: nat): ClearanceRecord {
    ClearanceRecord(DefaultClearanceStatus, None, None, None, Some(now))
  }

  function NewWork(status: string, now: nat): WorkRecord {
    WorkRecord(status, None, None, Some(now))
  }

  /** `new Project(f)` at time `now`: schema defaults fill the stage keys `f`
      lacks; a missing required string reads as the empty string and a
      missing size or creator as 0 and "" (`Complete` tells them apart). */
  function Instantiate(f: Fields, now: nat): (p: Project)
    ensures p.createdAt == now && p.createdBy == f.createdBy.GetOr("")
    ensures f.clearance.None? ==> p.clearance == NewClearance(now)
    ensures f.installation.None? ==> p.installation == NewWork(DefaultInstallationStatus, now)
    ensures f.connection.None? ==> p.connection == NewWork(DefaultConnectionStatus, now)
  {
    Project(
      f.projectNumber.GetOr(""),
      f.name.GetOr(""),
      f.location.GetOr(""),
      f.systemType.GetOr(""),
      f.size.GetOr(0),
      f.inverter.GetOr(""),
      f.pvPanel.GetOr(""),
      f.battery,
      f.assignedTechnicalOfficer.GetOr(None),
      OverlayClearance(NewClearance(now), f.clearance.GetOr(StagePatch(None, None, None, None, None, None))),
      OverlayWork(NewWork(DefaultInstallationStatus, now), f.installation.GetOr(StagePatch(None, None, None, None, None, None))),
      OverlayWork(NewWork(DefaultConnectionStatus, now), f.connection.GetOr(StagePatch(None, None, None, None, None, None))),
      f.createdBy.GetOr(""),
      now)
  }

  /** The required keys that are not strings are present. */
  predicate Complete(f: Fields) {
    f.size.Some? && f.createdBy.Some?
  }

  /** The schema's validators: required strings non-empty, and `systemType`
      and the three stage statuses within their enumerations. */
  predicate Conforms(p: Project) {
    && p.projectNumber != ""
    && p.name != ""
    && p.location != ""
    && p.systemType in SystemTypes
    && p.inverter != ""
    && p.pvPanel != ""
    && p.clearance.status in ClearanceStatuses
    && p.installation.status in InstallationStatuses
    && p.connection.status in ConnectionStatuses
  }

  /** A stored stage is wholly replaced by `doc.clearance = patch`: keys the
      patch lacks become unset. The status is the exception: the model keeps
      the stored status when the patch has none. */
  function ReplacedClearance(c: ClearanceRecord, patch: StagePatch): ClearanceRecord {
    OverlayClearance(ClearanceRecord(c.status, None, None, None, None), patch)
  }

  function ReplacedWork(w: WorkRecord, patch: StagePatch): WorkRecord {
    OverlayWork(WorkRecord(w.status, None, None, None), patch)
  }

  /** `doc[path] = f[path]` for a key `f` carries. */
  function Assigned(p: Project, f: Fields, path: Path): (r: Project)
    requires Has(f, path)
  {
    match path
    case ProjectNumberPath => p.(projectNumber := f.projectNumber.value)
    case NamePath => p.(name := f.name.value)
    case LocationPath => p.(location := f.location.value)
    case SystemTypePath => p.(systemType := f.systemType.value)
    case SizePath => p.(size := f.size.value)
    case InverterPath => p.(inverter := f.inverter.value)
    case PvPanelPath => p.(pvPanel := f.pvPanel.value)
    case BatteryPath => p.(battery := f.battery)
    case OfficerPath => p.(assignedTechnicalOfficer := f.assignedTechnicalOfficer.value)
    case ClearancePath => p.(clearance := ReplacedClearance(p.clearance, f.clearance.value))
    case InstallationPath => p.(installation := ReplacedWork(p.installation, f.installation.value))
    case ConnectionPath => p.(connection := ReplacedWork(p.connection, f.connection.value))
    case CreatedByPath => p.(createdBy := f.createdBy.value)
  }

  /** The three stage statuses as last stored; a status counts as modified
      when the document's differs from it. */
  datatype Statuses = Statuses(clearance: string, installation: string, connection: string)

  function StatusesOf(p: Project): Statuses {
    Statuses(p.clearance.status, p.installation.status, p.connection.status)
  }

  /** What a new document's statuses are compared with: the schema defaults. */
  const DefaultStatuses := Statuses(DefaultClearanceStatus, DefaultInstallationStatus, DefaultConnectionStatus)

  /** The pre-save hook: a stage whose status changed to its trigger value
      gets that date stamped with `now`. */
  function Stamped(prior: Statuses, p: Project, now: nat): Project {
    var c, i, n := p.clearance, p.installation, p.connection;
    var cChanged := c.status != prior.clearance;
    p.(clearance := c.(
         appliedDate := if cChanged && c.status == ClearanceApplied then Some(now) else c.appliedDate,
         receivedDate := if cChanged && c.status == ClearanceApproved then Some(now) else c.receivedDate),
       installation := i.(
         completedDate := if i.status != prior.installation && i.status == InstallationCompleted then Some(now) else i.completedDate),
       connection := n.(
         completedDate := if n.status != prior.connection && n.status == ConnectionComplete then Some(now) else n.completedDate))
  }

  /** The hook stamps exactly the trigger dates: a change of the clearance
      status to `clearance_applied` sets `appliedDate`, to
      `clearance_approved` sets `receivedDate`, and a change to
      `installation_completed` or `connection_complete` sets that stage's
      `completedDate`; every other date keeps its value. */
  lemma HookStampsTriggers(prior: Statuses, p: Project, now: nat)
    ensures var r := Stamped(prior, p, now);
      && (r.clearance.appliedDate == Some(now) || r.clearance.appliedDate == p.clearance.appliedDate)
      && (r.clearance.appliedDate != p.clearance.appliedDate
          ==> p.clearance.status != prior.clearance && p.clearance.status == ClearanceApplied)
      && (p.clearance.status != prior.clearance && p.clearance.status == ClearanceApplied
          ==> r.clearance.appliedDate == Some(now))
      && (p.clearance.status != prior.clearance && p.clearance.status == ClearanceApproved
          ==> r.clearance.receivedDate == Some(now))
      && (p.clearance.status == prior.clearance || p.clearance.status != ClearanceApproved
          ==> r.clearance.receivedDate == p.clearance.receivedDate)
      && (p.installation.status != prior.installation && p.installation.status == InstallationCompleted
          ==> r.installation.completedDate == Some(now))
      && (p.installation.status == prior.installation || p.installation.status != InstallationCompleted
          ==> r.installation.completedDate == p.installation.completedDate)
      && (p.connection.status != prior.connection && p.connection.status == ConnectionComplete
          ==> r.connection.completedDate == Some(now))
      && (p.connection.status == prior.connection || p.connection.status != ConnectionComplete
          ==> r.connection.completedDate == p.connection.completedDate)
  {
  }

  /** A stage whose status was not modified comes out of the hook as it went
      in, and nothing outside the four date fields is ever touched. */
  lemma HookKeepsUnmodifiedStages(prior: Statuses, p: Project, now: nat)
    ensures var r := Stamped(prior, p, now);
      && (p.clearance.status == prior.clearance ==> r.clearance == p.clearance)
      && (p.installation.status == prior.installation ==> r.installation == p.installation)
      && (p.connection.status == prior.connection ==> r.connection == p.connection)
      && StatusesOf(r) == StatusesOf(p)
      && r.(clearance := p.clearance, installation := p.installation, connection := p.connection) == p
      && r.clearance.(appliedDate := p.clearance.appliedDate, receivedDate := p.clearance.receivedDate) == p.clearance
      && r.installation.(completedDate := p.installation.completedDate) == p.installation
      && r.connection.(completedDate := p.connection.completedDate) == p.connection
  {
  }

  /** The hook only assigns dates, never clears one. */
  lemma HookNeverClears(prior: Statuses, p: Project, now: nat)
    ensures var r := Stamped(prior, p, now);
      && (p.clearance.appliedDate.Some? ==> r.clearance.appliedDate.Some?)
      && (p.clearance.receivedDate.Some? ==> r.clearance.receivedDate.Some?)
      && (p.installation.completedDate.Some? ==> r.installation.completedDate.Some?)
      && (p.connection.completedDate.Some? ==> r.connection.completedDate.Some?)
  {
  }

  /** Saving again with no status change leaves a stamped document as it is,
      whatever the clock says. */
  lemma HookIdempotent(prior: Statuses, p: Project, now: nat, later: nat)
    ensures var r := Stamped(prior, p, now);
      Stamped(StatusesOf(r), r, later) == r
  {
  }

  /** The hook never changes whether a document passes the validators. */
  lemma HookPreservesConformance(prior: Statuses, p: Project, now: nat)
    ensures Conforms(Stamped(prior, p, now)) <==> Conforms(p)
  {
  }

  /** A new document starts at the three stage defaults, which conform. */
  lemma NewDocumentDefaults(f: Fields, now: nat)
    requires f.clearance.None? && f.installation.None? && f.connection.None?
    ensures var p := Stamped(DefaultStatuses, Instantiate(f, now), now);
      && StatusesOf(p) == DefaultStatuses
      && p.clearance.status in ClearanceStatuses
      && p.installation.status in InstallationStatuses
      && p.connection.status in ConnectionStatuses
      && p.clearance.appliedDate.None? && p.clearance.receivedDate.None?
      && p.installation.completedDate.None? && p.connection.completedDate.None?
  {
  }

  /** A loaded Mongoose document, whose paths the routes and the pre-save
      hook assign in place. */
  class ProjectDocument {
    var projectNumber: string
    var name: string
    var location: string
    var systemType: string
    var size: int
    var inverter: string
    var pvPanel: string
    var battery: Option<string>
    var assignedTechnicalOfficer: Option<UserId>
    var clearance: ClearanceRecord
    var installation: WorkRecord
    var connection: WorkRecord
    var createdBy: UserId
    var createdAt: nat

    /** The document as a plain value. */
    function Value(): Project
      reads this
    {
      Project(projectNumber, name, location, systemType, size, inverter, pvPanel,
              battery, assignedTechnicalOfficer, clearance, installation, connection,
              createdBy, createdAt)
    }

    constructor Load(p: Project)
      ensures Value() == p
    {
      projectNumber, name, location, systemType := p.projectNumber, p.name, p.location, p.systemType;
      size, inverter, pvPanel, battery := p.size, p.inverter, p.pvPanel, p.battery;
      assignedTechnicalOfficer := p.assignedTechnicalOfficer;
      clearance, installation, connection := p.clearance, p.installation, p.connection;
      createdBy, createdAt := p.createdBy, p.createdAt;
    }

    /** `doc[path] = f[path]`. */
    method Set(path: Path, f: Fields)
      requires Has(f, path)
      modifies this
      ensures Value() == Assigned(old(Value()), f, path)
    {
      match path
      case ProjectNumberPath => projectNumber := f.projectNumber.value;
      case NamePath => name := f.name.value;
      case LocationPath => location := f.location.value;
      case SystemTypePath => systemType := f.systemType.value;
      case SizePath => size := f.size.value;
      case InverterPath => inverter := f.inverter.value;
      case PvPanelPath => pvPanel := f.pvPanel.value;
      case BatteryPath => battery := f.battery;
      case OfficerPath => assignedTechnicalOfficer := f.assignedTechnicalOfficer.value;
      case ClearancePath => clearance := ReplacedClearance(clearance, f.clearance.value);
      case InstallationPath => installation := ReplacedWork(installation, f.installation.value);
      case ConnectionPath => connection := ReplacedWork(connection, f.connection.value);
      case CreatedByPath => createdBy := f.createdBy.value;
    }

    /** The pre-save hook, run against the statuses the document was loaded
        with. */
    method PreSave(prior: Statuses, now: nat)
      modifies this
      ensures Value() == Stamped(prior, old(Value()), now)
    {
      if clearance.status != prior.clearance && clearance.status == ClearanceApplied {
        clearance := clearance.(appliedDate := Some(now));
      }
      if clearance.status != prior.clearance && clearance.status == ClearanceApproved {
        clearance := clearance.(receivedDate := Some(now));
      }
      if installation.status != prior.installation && installation.status == InstallationCompleted {
        installation := installation.(completedDate := Some(now));
      }
      if connection.status != prior.connection && connection.status == ConnectionComplete {
        connection := connection.(completedDate := Some(now));
      }
    }
  }
}
