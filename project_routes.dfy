// The project routes of backend/routes/projects.js: creation (team leaders
// only) and the role-scoped update, over a store of project documents.
module ProjectRoutes {

  import opened Options
  import opened Vocabulary
  import opened ProjectModel

  type ProjectId = string

  /** Why `save()` throws: a schema validator failed, or the unique index on
      `projectNumber` refused the write. */
  datatype SaveError = ValidationError | DuplicateKey

  datatype Reply =
    | Created(project: Project)
    | Updated(project: Project)
    | Forbidden
    | NotFound
    | ServerError(cause: SaveError)

  function StatusCode(r: Reply): (code: nat)
    ensures 200 <= code < 600
  {
    match r
    case Created(_) => 201
    case Updated(_) => 200
    case Forbidden => 403
    case NotFound => 404
    case ServerError(_) => 500
  }

  /** Some other document already holds `projectNumber`. */
  predicate Clashes(docs: map<ProjectId, Project>, id: ProjectId, projectNumber: string) {
    exists k :: k in docs && k != id && docs[k].projectNumber == projectNumber
  }

  /** No two documents share a project number. */
  predicate UniqueNumbers(docs: map<ProjectId, Project>) {
    forall k, j :: k in docs && j in docs && k != j ==> docs[k].projectNumber != docs[j].projectNumber
  }

  /** The clearance stage after an assistant merges `patch` into it: the
      stored sub-fields, overridden by the patch's, then `updatedBy` and
      `updatedAt` forced to the requester and now. */
  function MergedClearance(c: ClearanceRecord, patch: StagePatch, actor: UserId, now: nat): ClearanceRecord {
    OverlayClearance(c, patch).(updatedBy := Some(actor), updatedAt := Some(now))
  }

  function MergedWork(w: WorkRecord, patch: StagePatch, actor: UserId, now: nat): WorkRecord {
    OverlayWork(w, patch).(updatedBy := Some(actor), updatedAt := Some(now))
  }

  /** What a team leader's body does to a document, field by field: every key
      the body carries replaces the stored value, except `createdBy`. */
  function LeaderEdit(p: Project, b: Fields): Project {
    Project(
      b.projectNumber.GetOr(p.projectNumber),
      b.name.GetOr(p.name),
      b.location.GetOr(p.location),
      b.systemType.GetOr(p.systemType),
      b.size.GetOr(p.size),
      b.inverter.GetOr(p.inverter),
      b.pvPanel.GetOr(p.pvPanel),
      if b.battery.Some? then b.battery else p.battery,
      b.assignedTechnicalOfficer.GetOr(p.assignedTechnicalOfficer),
      if b.clearance.Some? then ReplacedClearance(p.clearance, b.clearance.value) else p.clearance,
      if b.installation.Some? then ReplacedWork(p.installation, b.installation.value) else p.installation,
      if b.connection.Some? then ReplacedWork(p.connection, b.connection.value) else p.connection,
      p.createdBy,
      p.createdAt)
  }

  /** The document after the role-scoped assignments of PUT, before saving. */
  function Edited(p: Project, role: Role, actor: UserId, b: Fields, now: nat): Project {
    match role
    case Assistant =>
      p.(clearance := if b.clearance.Some? then MergedClearance(p.clearance, b.clearance.value, actor, now) else p.clearance,
         connection := if b.connection.Some? then MergedWork(p.connection, b.connection.value, actor, now) else p.connection)
    case TechnicalOfficer =>
      p.(installation := if b.installation.Some? then MergedWork(p.installation, b.installation.value, actor, now) else p.installation,
         connection := if b.connection.Some? then MergedWork(p.connection, b.connection.value, actor, now) else p.connection)
    case TeamLeader => LeaderEdit(p, b)
    case Other => p
  }

  /** The reply of POST /: creation by a team leader, with `createdBy` set to
      the requester whatever the body says. */
  function CreateReply(docs: map<ProjectId, Project>, id: ProjectId, role: Role, actor: UserId, body: Fields, now: nat): Reply {
    if role != TeamLeader then Forbidden
    else
      var f := body.(createdBy := Some(actor));
      if !Complete(f) || !Conforms(Instantiate(f, now)) then ServerError(ValidationError)
      else
        var p := Stamped(DefaultStatuses, Instantiate(f, now), now);
        if Clashes(docs, id, p.projectNumber) then ServerError(DuplicateKey) else Created(p)
  }

  /** The reply of PUT /:id. */
  function PutReply(docs: map<ProjectId, Project>, id: ProjectId, role: Role, actor: UserId, body: Fields, now: nat): Reply {
    if id !in docs then NotFound
    else
      var e := Edited(docs[id], role, actor, body, now);
      if !Conforms(e) then ServerError(ValidationError)
      else
        var p := Stamped(StatusesOf(docs[id]), e, now);
        if Clashes(docs, id, p.projectNumber) then ServerError(DuplicateKey) else Updated(p)
  }

  /** The team leader's edit after the loop has visited the keys in `done`. */
  function LeaderEditOn(p: Project, b: Fields, done: set<Path>): Project {
    Project(
      if ProjectNumberPath in done then b.projectNumber.GetOr(p.projectNumber) else p.projectNumber,
      if NamePath in done then b.name.GetOr(p.name) else p.name,
      if LocationPath in done then b.location.GetOr(p.location) else p.location,
      if SystemTypePath in done then b.systemType.GetOr(p.systemType) else p.systemType,
      if SizePath in done then b.size.GetOr(p.size) else p.size,
      if InverterPath in done then b.inverter.GetOr(p.inverter) else p.inverter,
      if PvPanelPath in done then b.pvPanel.GetOr(p.pvPanel) else p.pvPanel,
      if BatteryPath in done && b.battery.Some? then b.battery else p.battery,
      if OfficerPath in done then b.assignedTechnicalOfficer.GetOr(p.assignedTechnicalOfficer) else p.assignedTechnicalOfficer,
      if ClearancePath in done && b.clearance.Some? then ReplacedClearance(p.clearance, b.clearance.value) else p.clearance,
      if InstallationPath in done && b.installation.Some? then ReplacedWork(p.installation, b.installation.value) else p.installation,
      if ConnectionPath in done && b.connection.Some? then ReplacedWork(p.connection, b.connection.value) else p.connection,
      p.createdBy,
      p.createdAt)
  }

  /** One turn of the team leader's `Object.keys(req.body).forEach` loop
      extends the edit by one more key; `createdBy` is skipped. */
  lemma LeaderStep(p: Project, b: Fields, done: set<Path>, k: Path)
    requires Has(b, k)
    ensures k != CreatedByPath ==>
      LeaderEditOn(p, b, done + {k}) == Assigned(LeaderEditOn(p, b, done), b, k)
    ensures k == CreatedByPath ==>
      LeaderEditOn(p, b, done + {k}) == LeaderEditOn(p, b, done)
  {
    if k in {ClearancePath, InstallationPath, ConnectionPath, CreatedByPath} {
      LeaderStageStep(p, b, done, k);
    } else {
      LeaderBasicStep(p, b, done, k);
    }
  }

  /** `LeaderStep` for a basic field. */
  lemma LeaderBasicStep(p: Project, b: Fields, done: set<Path>, k: Path)
    requires Has(b, k) && k !in {ClearancePath, InstallationPath, ConnectionPath, CreatedByPath}
    ensures LeaderEditOn(p, b, done + {k}) == Assigned(LeaderEditOn(p, b, done), b, k)
  {
    if k in {ProjectNumberPath, NamePath, LocationPath, SystemTypePath} {
      LeaderTextStep(p, b, done, k);
    } else {
      LeaderEquipmentStep(p, b, done, k);
    }
  }

  /** `LeaderStep` for the number, name, location and system type. */
  lemma LeaderTextStep(p: Project, b: Fields, done: set<Path>, k: Path)
    requires Has(b, k) && k in {ProjectNumberPath, NamePath, LocationPath, SystemTypePath}
    ensures LeaderEditOn(p, b, done + {k}) == Assigned(LeaderEditOn(p, b, done), b, k)
  {
    var q, q' := LeaderEditOn(p, b, done), LeaderEditOn(p, b, done + {k});
    match k
    case ProjectNumberPath => assert q' == q.(projectNumber := b.projectNumber.value);
    case NamePath => assert q' == q.(name := b.name.value);
    case LocationPath => assert q' == q.(location := b.location.value);
    case SystemTypePath => assert q' == q.(systemType := b.systemType.value);
  }

  /** `LeaderStep` for the size, the equipment and the officer. */
  lemma LeaderEquipmentStep(p: Project, b: Fields, done: set<Path>, k: Path)
    requires Has(b, k) && k in {SizePath, InverterPath, PvPanelPath, BatteryPath, OfficerPath}
    ensures LeaderEditOn(p, b, done + {k}) == Assigned(LeaderEditOn(p, b, done), b, k)
  {
    var q, q' := LeaderEditOn(p, b, done), LeaderEditOn(p, b, done + {k});
    match k
    case SizePath => assert q' == q.(size := b.size.value);
    case InverterPath => assert q' == q.(inverter := b.inverter.value);
    case PvPanelPath => assert q' == q.(pvPanel := b.pvPanel.value);
    case BatteryPath => assert q' == q.(battery := b.battery);
    case OfficerPath => assert q' == q.(assignedTechnicalOfficer := b.assignedTechnicalOfficer.value);
  }

  /** `LeaderStep` for a stage and for `createdBy`. */
  lemma LeaderStageStep(p: Project, b: Fields, done: set<Path>, k: Path)
    requires Has(b, k) && k in {ClearancePath, InstallationPath, ConnectionPath, CreatedByPath}
    ensures k != CreatedByPath ==>
      LeaderEditOn(p, b, done + {k}) == Assigned(LeaderEditOn(p, b, done), b, k)
    ensures k == CreatedByPath ==>
      LeaderEditOn(p, b, done + {k}) == LeaderEditOn(p, b, done)
  {
    var q, q' := LeaderEditOn(p, b, done), LeaderEditOn(p, b, done + {k});
    match k
    case ClearancePath => assert q' == q.(clearance := ReplacedClearance(q.clearance, b.clearance.value));
    case InstallationPath => assert q' == q.(installation := ReplacedWork(q.installation, b.installation.value));
    case ConnectionPath => assert q' == q.(connection := ReplacedWork(q.connection, b.connection.value));
    case CreatedByPath =>
  }

  /** `LeaderStep` as the loop uses it: the document before and after one
      turn. */
  lemma LeaderStepTaken(p: Project, b: Fields, done: set<Path>, k: Path, before: Project, after: Project)
    requires Has(b, k) && before == LeaderEditOn(p, b, done)
    requires after == if k != CreatedByPath then Assigned(before, b, k) else before
    ensures after == LeaderEditOn(p, b, done + {k})
  {
    LeaderStep(p, b, done, k);
  }

  /** Visiting every key the body carries is the whole field-by-field edit. */
  lemma LeaderEditOnAllKeys(p: Project, b: Fields, done: set<Path>)
    requires b.projectNumber.Some? ==> ProjectNumberPath in done
    requires b.name.Some? ==> NamePath in done
    requires b.location.Some? ==> LocationPath in done
    requires b.systemType.Some? ==> SystemTypePath in done
    requires b.size.Some? ==> SizePath in done
    requires b.inverter.Some? ==> InverterPath in done
    requires b.pvPanel.Some? ==> PvPanelPath in done
    requires b.battery.Some? ==> BatteryPath in done
    requires b.assignedTechnicalOfficer.Some? ==> OfficerPath in done
    requires b.clearance.Some? ==> ClearancePath in done
    requires b.installation.Some? ==> InstallationPath in done
    requires b.connection.Some? ==> ConnectionPath in done
    ensures LeaderEditOn(p, b, done) == LeaderEdit(p, b)
  {
  }

  lemma KeyListed(b: Fields, path: Path)
    ensures Has(b, path) ==> path in Keys(b)
  {
  }

  /** A loop that visited every key of `Object.keys(b)` visited each key `b`
      carries. */
  lemma VisitedEveryPresentKey(b: Fields, done: set<Path>)
    requires forall k :: k in Keys(b) ==> k in done
    ensures b.projectNumber.Some? ==> ProjectNumberPath in done
    ensures b.name.Some? ==> NamePath in done
    ensures b.location.Some? ==> LocationPath in done
    ensures b.systemType.Some? ==> SystemTypePath in done
    ensures b.size.Some? ==> SizePath in done
    ensures b.inverter.Some? ==> InverterPath in done
    ensures b.pvPanel.Some? ==> PvPanelPath in done
    ensures b.battery.Some? ==> BatteryPath in done
    ensures b.assignedTechnicalOfficer.Some? ==> OfficerPath in done
    ensures b.clearance.Some? ==> ClearancePath in done
    ensures b.installation.Some? ==> InstallationPath in done
    ensures b.connection.Some? ==> ConnectionPath in done
  {
    KeyListed(b, ProjectNumberPath);
    KeyListed(b, NamePath);
    KeyListed(b, LocationPath);
    KeyListed(b, SystemTypePath);
    KeyListed(b, SizePath);
    KeyListed(b, InverterPath);
    KeyListed(b, PvPanelPath);
    KeyListed(b, BatteryPath);
    KeyListed(b, OfficerPath);
    KeyListed(b, ClearancePath);
    KeyListed(b, InstallationPath);
    KeyListed(b, ConnectionPath);
  }

  /** The team leader's branch: `Object.keys(req.body).forEach(key => { if
      (key !== 'createdBy') project[key] = req.body[key]; })`. */
  method AssignBody(doc: ProjectDocument, body: Fields)
    modifies doc
    ensures doc.Value() == LeaderEdit(old(doc.Value()), body)
  {
    ghost var stored := doc.Value();
    var keys := Keys(body);
    ghost var done: set<Path> := {};
    for i := 0 to |keys|
      invariant forall j :: 0 <= j < i ==> keys[j] in done
      invariant doc.Value() == LeaderEditOn(stored, body, done)
    {
      var key := keys[i];
      ghost var before := doc.Value();
      if key != CreatedByPath {
        doc.Set(key, body);
      }
      LeaderStepTaken(stored, body, done, key, before, doc.Value());
      done := done + {key};
    }
    VisitedEveryPresentKey(body, done);
    LeaderEditOnAllKeys(stored, body, done);
  }

  /** The role-scoped assignments of PUT, made on the loaded document. */
  method ApplyRole(doc: ProjectDocument, role: Role, actor: UserId, body: Fields, now: nat)
    modifies doc
    ensures doc.Value() == Edited(old(doc.Value()), role, actor, body, now)
  {
    if role == Assistant {
      if body.clearance.Some? {
        doc.clearance := MergedClearance(doc.clearance, body.clearance.value, actor, now);
      }
      if body.connection.Some? {
        doc.connection := MergedWork(doc.connection, body.connection.value, actor, now);
      }
    } else if role == TechnicalOfficer {
      if body.installation.Some? {
        doc.installation := MergedWork(doc.installation, body.installation.value, actor, now);
      }
      if body.connection.Some? {
        doc.connection := MergedWork(doc.connection, body.connection.value, actor, now);
      }
    } else if role == TeamLeader {
      AssignBody(doc, body);
    }
  }

  /** Writing a valid project whose number no other document holds keeps
      every stored document valid and every number unique. */
  lemma Stored(docs: map<ProjectId, Project>, id: ProjectId, p: Project)
    requires (forall k :: k in docs ==> Conforms(docs[k])) && UniqueNumbers(docs)
    requires Conforms(p) && !Clashes(docs, id, p.projectNumber)
    ensures var d := docs[id := p];
      (forall k :: k in d ==> Conforms(d[k])) && UniqueNumbers(d)
  {
  }

  /** The documents of a collection, with the unique index on
      `projectNumber`. */
  class ProjectStore {
    var docs: map<ProjectId, Project>

    /** Every stored document passes the validators and no project number
        is held twice. */
    ghost predicate Valid()
      reads this
    {
      (forall k :: k in docs ==> Conforms(docs[k])) && UniqueNumbers(docs)
    }

    constructor ()
      ensures Valid() && docs == map[]
    {
      docs := map[];
    }

    /** POST /: `id` is the fresh ObjectId the driver assigns. */
    method Create(id: ProjectId, role: Role, actor: UserId, body: Fields, now: nat) returns (reply: Reply)
      requires Valid() && id !in docs
      modifies this
      ensures Valid()
      ensures reply == CreateReply(old(docs), id, role, actor, body, now)
      ensures docs == if reply.Created? then old(docs)[id := reply.project] else old(docs)
    {
      if role != TeamLeader {
        return Forbidden;
      }
      var f := body.(createdBy := Some(actor));
      if !Complete(f) {
        return ServerError(ValidationError);
      }
      var doc := new ProjectDocument.Load(Instantiate(f, now));
      if !Conforms(doc.Value()) {
        return ServerError(ValidationError);
      }
      doc.PreSave(DefaultStatuses, now);
      HookPreservesConformance(DefaultStatuses, Instantiate(f, now), now);
      if Clashes(docs, id, doc.projectNumber) {
        return ServerError(DuplicateKey);
      }
      var saved := doc.Value();
      Stored(docs, id, saved);
      docs := docs[id := saved];
      reply := Created(saved);
    }

    /** PUT /:id: load, assign what the requester's role allows, save. */
    method Put(id: ProjectId, role: Role, actor: UserId, body: Fields, now: nat) returns (reply: Reply)
      requires Valid()
      modifies this
      ensures Valid()
      ensures reply == PutReply(old(docs), id, role, actor, body, now)
      ensures docs == if reply.Updated? then old(docs)[id := reply.project] else old(docs)
    {
      if id !in docs {
        return NotFound;
      }
      var stored := docs[id];
      var doc := new ProjectDocument.Load(stored);
      ApplyRole(doc, role, actor, body, now);
      if !Conforms(doc.Value()) {
        return ServerError(ValidationError);
      }
      var edited := doc.Value();
      doc.PreSave(StatusesOf(stored), now);
      HookPreservesConformance(StatusesOf(stored), edited, now);
      if Clashes(docs, id, doc.projectNumber) {
        return ServerError(DuplicateKey);
      }
      var saved := doc.Value();
      Stored(docs, id, saved);
      docs := docs[id := saved];
      reply := Updated(saved);
    }
  }

  /** Only a team leader can create; anyone else gets 403 and the store is
      left as it was. */
  lemma OnlyLeadersCreate(docs: map<ProjectId, Project>, id: ProjectId, role: Role, actor: UserId, body: Fields, now: nat)
    ensures var r := CreateReply(docs, id, role, actor, body, now);
      (r.Created? ==> role == TeamLeader) && (role != TeamLeader ==> StatusCode(r) == 403)
  {
  }

  /** A created project is owned by the requester, even when the body names
      someone else, carries every required field and starts each stage the
      body leaves out at its default. */
  lemma CreatedProjectShape(docs: map<ProjectId, Project>, id: ProjectId, actor: UserId, body: Fields, now: nat)
    requires CreateReply(docs, id, TeamLeader, actor, body, now).Created?
    ensures var p := CreateReply(docs, id, TeamLeader, actor, body, now).project;
      && p.createdBy == actor
      && Conforms(p)
      && body.size == Some(p.size)
      && body.projectNumber == Some(p.projectNumber) && body.name == Some(p.name)
      && body.location == Some(p.location) && body.systemType == Some(p.systemType)
      && body.inverter == Some(p.inverter) && body.pvPanel == Some(p.pvPanel)
      && p.createdAt == now
      && (body.clearance.None? ==> p.clearance.status == PendingToApply)
      && (body.installation.None? ==> p.installation.status == ClearanceReceived)
      && (body.connection.None? ==> p.connection.status == DocumentSubmission)
  {
    var f := body.(createdBy := Some(actor));
    HookPreservesConformance(DefaultStatuses, Instantiate(f, now), now);
  }

  /** Creation refuses a body without every required field. */
  lemma CreateNeedsRequiredFields(docs: map<ProjectId, Project>, id: ProjectId, actor: UserId, body: Fields, now: nat)
    requires body.projectNumber.None? || body.name.None? || body.location.None? || body.systemType.None?
          || body.size.None? || body.inverter.None? || body.pvPanel.None?
    ensures CreateReply(docs, id, TeamLeader, actor, body, now) == ServerError(ValidationError)
  {
  }

  /** An update of an unknown id is a 404. */
  lemma UnknownIdNotFound(docs: map<ProjectId, Project>, id: ProjectId, role: Role, actor: UserId, body: Fields, now: nat)
    requires id !in docs
    ensures StatusCode(PutReply(docs, id, role, actor, body, now)) == 404
  {
  }

  /** An assistant's update touches at most the clearance and connection
      stages: installation and every basic field stay as stored, whatever the
      body carries. */
  lemma AssistantScope(p: Project, actor: UserId, b: Fields, now: nat)
    ensures var e := Edited(p, Assistant, actor, b, now);
      && e.(clearance := p.clearance, connection := p.connection) == p
      && (b.clearance.None? ==> e.clearance == p.clearance)
      && (b.connection.None? ==> e.connection == p.connection)
  {
  }

  /** A technical officer's update touches at most the installation and
      connection stages. */
  lemma OfficerScope(p: Project, actor: UserId, b: Fields, now: nat)
    ensures var e := Edited(p, TechnicalOfficer, actor, b, now);
      && e.(installation := p.installation, connection := p.connection) == p
      && (b.installation.None? ==> e.installation == p.installation)
      && (b.connection.None? ==> e.connection == p.connection)
  {
  }

  /** The field-level merge of an assistant's update: a stage the body
      carries keeps each stored sub-field the body's stage object lacks,
      takes each one it has, and records the requester and now over whatever
      the object says. */
  lemma MergeSemantics(p: Project, actor: UserId, b: Fields, now: nat)
    ensures var e := Edited(p, Assistant, actor, b, now);
      b.clearance.Some? ==>
        var c := b.clearance.value;
        && e.clearance.status == (if c.status.Some? then c.status.value else p.clearance.status)
        && e.clearance.appliedDate == (if c.appliedDate.Some? then c.appliedDate.value else p.clearance.appliedDate)
        && e.clearance.receivedDate == (if c.receivedDate.Some? then c.receivedDate.value else p.clearance.receivedDate)
        && e.clearance.updatedBy == Some(actor) && e.clearance.updatedAt == Some(now)
    ensures var e := Edited(p, Assistant, actor, b, now);
      b.connection.Some? ==>
        var c := b.connection.value;
        && e.connection.status == (if c.status.Some? then c.status.value else p.connection.status)
        && e.connection.completedDate == (if c.completedDate.Some? then c.completedDate.value else p.connection.completedDate)
        && e.connection.updatedBy == Some(actor) && e.connection.updatedAt == Some(now)
  {
  }

  /** The field-level merge of a technical officer's update, on installation
      and connection. */
  lemma OfficerMergeSemantics(p: Project, actor: UserId, b: Fields, now: nat)
    ensures var e := Edited(p, TechnicalOfficer, actor, b, now);
      b.installation.Some? ==>
        var c := b.installation.value;
        && e.installation.status == (if c.status.Some? then c.status.value else p.installation.status)
        && e.installation.completedDate == (if c.completedDate.Some? then c.completedDate.value else p.installation.completedDate)
        && e.installation.updatedBy == Some(actor) && e.installation.updatedAt == Some(now)
    ensures var e := Edited(p, TechnicalOfficer, actor, b, now);
      b.connection.Some? ==>
        var c := b.connection.value;
        && e.connection.status == (if c.status.Some? then c.status.value else p.connection.status)
        && e.connection.completedDate == (if c.completedDate.Some? then c.completedDate.value else p.connection.completedDate)
        && e.connection.updatedBy == Some(actor) && e.connection.updatedAt == Some(now)
  {
  }

  /** A team leader's update replaces every key the body carries except
      `createdBy`; `createdBy`, `createdAt` and every key the body lacks keep
      their stored values. */
  lemma LeaderOverwrites(p: Project, actor: UserId, b: Fields, now: nat)
    ensures var e := Edited(p, TeamLeader, actor, b, now);
      && e.createdBy == p.createdBy
      && (forall k :: Has(b, k) && k != CreatedByPath ==> e == Assigned(e, b, k))
      && (b.(createdBy := None) == NoFields ==> e == p)
    ensures var e := Edited(p, TeamLeader, actor, b, now);
      && e.createdAt == p.createdAt
      && (b.projectNumber.None? ==> e.projectNumber == p.projectNumber)
      && (b.name.None? ==> e.name == p.name)
      && (b.location.None? ==> e.location == p.location)
      && (b.systemType.None? ==> e.systemType == p.systemType)
      && (b.size.None? ==> e.size == p.size)
      && (b.inverter.None? ==> e.inverter == p.inverter)
      && (b.pvPanel.None? ==> e.pvPanel == p.pvPanel)
      && (b.battery.None? ==> e.battery == p.battery)
      && (b.assignedTechnicalOfficer.None? ==> e.assignedTechnicalOfficer == p.assignedTechnicalOfficer)
      && (b.clearance.None? ==> e.clearance == p.clearance)
      && (b.installation.None? ==> e.installation == p.installation)
      && (b.connection.None? ==> e.connection == p.connection)
  {
    var e := Edited(p, TeamLeader, actor, b, now);
    forall k | Has(b, k) && k != CreatedByPath
      ensures e == Assigned(e, b, k)
    {
      match k
      case ClearancePath =>
      case InstallationPath =>
      case ConnectionPath =>
      case _ =>
    }
  }

  /** Any role other than the three falls through: the document is saved
      unchanged. */
  lemma OtherRoleChangesNothing(docs: map<ProjectId, Project>, id: ProjectId, actor: UserId, body: Fields, now: nat)
    requires id in docs && Conforms(docs[id]) && UniqueNumbers(docs)
    ensures PutReply(docs, id, Other, actor, body, now) == Updated(docs[id])
  {
  }

  /** The server performs no stage gating: a technical officer can move
      installation to any of its statuses while clearance is not approved. */
  lemma ServerSkipsInstallationGate(docs: map<ProjectId, Project>, id: ProjectId, actor: UserId, patch: StagePatch, s: string, now: nat)
    requires id in docs && Conforms(docs[id]) && UniqueNumbers(docs)
    requires docs[id].clearance.status != ClearanceApproved
    requires s in InstallationStatuses && patch.status == Some(s)
    ensures var body := Fields(None, None, None, None, None, None, None, None, None, None, Some(patch), None, None);
      var r := PutReply(docs, id, TechnicalOfficer, actor, body, now);
      && r.Updated?
      && r.project.installation.status == s
      && r.project.clearance == docs[id].clearance
      && (s == InstallationCompleted && docs[id].installation.status != s ==> r.project.installation.completedDate == Some(now))
  {
  }

  /** A date the hook stamped is not safe from a team leader: a stage object
      that leaves the date out and keeps the status clears it. */
  lemma LeaderClearsDates(p: Project, actor: UserId, patch: StagePatch, now: nat)
    requires patch.appliedDate.None? && (patch.status.None? || patch.status == Some(p.clearance.status))
    ensures var b := Fields(None, None, None, None, None, None, None, None, None, Some(patch), None, None, None);
      Stamped(StatusesOf(p), Edited(p, TeamLeader, actor, b, now), now).clearance.appliedDate.None?
  {
  }
}
