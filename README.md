# Solar project workflow — a Dafny model

This project models the three-stage workflow of a solar-installation project tracker. The stages are regulatory clearance, physical installation and grid connection. It proves properties of that model. The model covers the following parts of the system:

- **The project document** (`backend/models/Project.js`), in `project_model.dfy`:
  - the basic fields;
  - the three stage records, each with a closed vocabulary of status tokens and a default;
  - the schema validators;
  - the pre-save hook that stamps `appliedDate`, `receivedDate` or `completedDate` when a stage's status changes to its trigger value.

  A loaded document is a class whose paths are assigned in place.
- **The project routes** (`backend/routes/projects.js`), in `project_routes.dfy`:
  - creation, which only a team leader may do and whose `createdBy` is always the requester;
  - the role-scoped update:
    - assistants merge clearance and connection;
    - technical officers merge installation and connection;
    - team leaders overwrite every key of the body but `createdBy`.

  These run over a store of documents that keeps the validators and the unique index on `projectNumber` as its invariant. Replies are values: 201, 200, 403, 404, and 500 for a failed save.
- **The project form** (`frontend/src/components/ProjectForm.jsx`), in `project_form.dfy`:
  - the client-side stage gates;
  - the single-stage update that `handleStepChange` applies to the form state and `quickUpdateStep` sends to the server;
  - the stage labels.
- **The project list** (`frontend/src/components/Projects.jsx`), in `project_list.dfy`, with the key order in `key_order.dfy`:
  - the stage filter;
  - the column comparator, and the sort it drives, as an in-place insertion sort on an array;
  - the sort controls;
  - the status badges.
- **The dashboard badge** (`frontend/src/components/Dashboard.jsx`), in `dashboard.dfy`.
- **The CSV report** (`frontend/src/components/Reports.jsx`), in `reports.dfy`. It is proved against a quote-aware reader that follows section 2 of RFC 4180.

Shared vocabulary is in `vocabulary.dfy` and an `Option` type is in `options.dfy`. Times are a `nat` "now" passed in. User and project ids are opaque strings.

Specification functions the lemmas talk about:

| function | meaning |
|---|---|
| `ProjectModel.Stamped` | the hook (backend/models/Project.js:125-149) |
| `ProjectRoutes.MergedClearance` and `ProjectRoutes.MergedWork` | the spread merge of a stored stage with a stage object (backend/routes/projects.js:56-89); `ProjectRoutes.MergeSemantics` and `ProjectRoutes.OfficerMergeSemantics` state it field by field |
| `ProjectRoutes.LeaderEdit` | the team leader's key-by-key overwrite (backend/routes/projects.js:90-96); `ProjectRoutes.LeaderOverwrites` states it |
| `ProjectRoutes.Edited` | the role-scoped assignments |
| `ProjectRoutes.CreateReply` and `ProjectRoutes.PutReply` | the whole requests |
| `ProjectForm.CanEditInstallation`, `ProjectForm.CanEditConnection` and `ProjectForm.CanEditClearance` | the client's gates (frontend/src/components/ProjectForm.jsx:47-52 and 303); `ProjectForm.GateRoles` and `ProjectForm.GatesBlockEarlyStages` state their consequences |
| `ProjectForm.IsProjectCompleted` | the completion banner's condition (frontend/src/components/ProjectForm.jsx:54); `ProjectForm.CompletionFollowsConnection` states when it switches |
| `ProjectForm.StepUpdate` | the client's update object |
| `ProjectList.Filtered`, `ProjectList.Compare` and `ProjectList.Toggled` | the list logic |
| `ProjectList.SortIcon` | the column icon (frontend/src/components/Projects.jsx:107-110); `ProjectList.IconSemantics` states it |
| `Reports.ExportCsv` | the export as written |

The methods are proved equal to these functions, and the lemmas state what the functions promise.

The workflow is meant to work as follows; where the code does otherwise, the model follows the code:

- **Gating.** Every entry point is meant to gate the stages. The server gates nothing (`ProjectRoutes.ServerSkipsInstallationGate`). The client gates installation and connection in both handlers, but clearance in neither: only the clearance buttons check `canEditClearance`.
- **Out-of-scope keys.** An edit outside the requester's stages is meant to fail with an authorization error. The server silently ignores such keys and answers 200 (`ProjectRoutes.AssistantScope`, `ProjectRoutes.OfficerScope`).
- **Error codes.** A missing field or a duplicate project number is meant to be reported as a validation error. The code answers 500 for both, as it does for any failed save.
- **Re-stamping dates.** A date already set is meant to be kept when its status is set again. The hook overwrites it whenever the status changes to its trigger value (`ProjectModel.HookStampsTriggers`).
- **Quick updates by a team leader.** A stage's earlier dates are meant to survive a later status change. A team leader's quick update replaces the whole stage with the update object, so approving clearance drops its `appliedDate` (`ProjectForm.LeaderQuickApprovalDropsAppliedDate`).

## Model

| member | source | states |
|---|---|---|
| Vocabulary.VocabulariesDisjoint | backend/models/Project.js:41-114 | no status token belongs to two stage vocabularies, each stage default lies in its own vocabulary, and there are 14 tokens in all |
| ProjectModel.Keys | backend/routes/projects.js:92 | `Object.keys(req.body)` lists exactly the keys the body carries |
| ProjectModel.Instantiate | backend/models/Project.js:41-114 | a new document takes `createdAt` now and `createdBy` from the fields, and each stage the fields leave out starts at its schema default with `updatedAt` now |
| ProjectModel.HookStampsTriggers | backend/models/Project.js:125-146 | a clearance change to `clearance_applied` or `clearance_approved` stamps `appliedDate` or `receivedDate` with now; an installation change to `installation_completed` or a connection change to `connection_complete` stamps that stage's `completedDate`; a date changes only in those cases, and an existing date is overwritten |
| ProjectModel.HookKeepsUnmodifiedStages | backend/models/Project.js:129-146 | a stage whose status was not modified comes out unchanged; no status and no field outside the four dates is ever changed |
| ProjectModel.HookNeverClears | backend/models/Project.js:125-149 | the hook never clears a date that is set |
| ProjectModel.HookIdempotent | backend/models/Project.js:129-146 | saving a stamped document again with no status change leaves it as it is, whatever the clock says |
| ProjectModel.HookPreservesConformance | backend/models/Project.js:125-149 | the hook never changes whether the document passes the schema validators |
| ProjectModel.NewDocumentDefaults | backend/models/Project.js:41-114 | a new project whose body names no stage starts at `pending_to_apply_clearance_application`, `clearance_received` and `document_submission`, within the vocabularies and with no dates |
| ProjectModel.ProjectDocument.Load | backend/routes/projects.js:45 | the loaded document's value is the stored project |
| ProjectModel.ProjectDocument.Set | backend/routes/projects.js:94 | `project[key] = req.body[key]` changes exactly that path; a stage object replaces the stored stage wholesale |
| ProjectModel.ProjectDocument.PreSave | backend/models/Project.js:125-149 | the four in-place assignments of the hook leave the document equal to the hook's specification applied to the old document |
| ProjectRoutes.AssignBody | backend/routes/projects.js:92-96 | the `Object.keys(req.body).forEach` loop leaves the document equal to the field-by-field overwrite of every body key except `createdBy` (proved with a loop invariant over the visited keys) |
| ProjectRoutes.ApplyRole | backend/routes/projects.js:54-97 | the role dispatch leaves the document equal to the role-scoped edit: merges for assistants and technical officers, the overwrite for team leaders, nothing for any other role |
| ProjectRoutes.ProjectStore.Create | backend/routes/projects.js:20-40 | POST replies as the creation specification says, stores the project exactly when it replies Created, and keeps every stored document valid and every project number unique |
| ProjectRoutes.ProjectStore.Put | backend/routes/projects.js:43-108 | PUT replies as the update specification says, writes the document exactly when it replies Updated, and keeps the store's invariant |
| ProjectRoutes.OnlyLeadersCreate | backend/routes/projects.js:22-24 | only a team leader can create; any other role gets 403 |
| ProjectRoutes.CreatedProjectShape | backend/routes/projects.js:26-31 | a created project has `createdBy` equal to the requester whatever the body says, takes every required field from the body, conforms to the schema, and starts each stage the body leaves out at its default |
| ProjectRoutes.CreateNeedsRequiredFields | backend/models/Project.js:4-33 | creation without any one of the required fields fails validation |
| ProjectRoutes.UnknownIdNotFound | backend/routes/projects.js:45-49 | an update of an unknown id answers 404 |
| ProjectRoutes.AssistantScope | backend/routes/projects.js:54-71 | an assistant's update changes nothing but clearance and connection, and only the stages the body carries |
| ProjectRoutes.OfficerScope | backend/routes/projects.js:72-89 | a technical officer's update changes nothing but installation and connection, and only the stages the body carries |
| ProjectRoutes.MergeSemantics | backend/routes/projects.js:56-71 | for an assistant's update, a clearance or connection object in the body yields a stage that keeps each stored status or date the object lacks, takes each one it has, and records the requester and now whatever the object says |
| ProjectRoutes.OfficerMergeSemantics | backend/routes/projects.js:72-89 | the same merge for a technical officer's installation and connection objects |
| ProjectRoutes.LeaderOverwrites | backend/routes/projects.js:90-96 | a team leader's update assigns every body key except `createdBy`; `createdBy`, `createdAt` and every field the body lacks keep their stored values, and a body with no other key changes nothing |
| ProjectRoutes.OtherRoleChangesNothing | backend/routes/projects.js:54-99 | any other role falls through and the stored project is saved and returned unchanged |
| ProjectRoutes.ServerSkipsInstallationGate | backend/routes/projects.js:72-81 | a technical officer can move installation to any status while clearance is not approved, and completing installation stamps its date |
| ProjectRoutes.LeaderClearsDates | backend/routes/projects.js:92-96 | a team leader's stage object that leaves a date out clears a date the hook had stamped |
| ProjectForm.GateRoles | frontend/src/components/ProjectForm.jsx:47-52 | with no user or another role no stage opens; an assistant never gets installation and a technical officer never gets clearance; whatever opens to any user opens to a team leader; and whoever may edit a completed installation may edit connection |
| ProjectForm.CompletionFollowsConnection | frontend/src/components/ProjectForm.jsx:54 | the project shows as completed after a step exactly when that step sets connection to `connection_complete`, or it was completed and the step concerns another stage; a permitted step completes it only once installation is completed |
| ProjectForm.BuildStepUpdate | frontend/src/components/ProjectForm.jsx:139-156 | building `updateData` key by key gives the status, the user's id, now, and exactly the date the status calls for |
| ProjectForm.QuickBody | frontend/src/components/ProjectForm.jsx:231-237 | the quick-update request carries exactly one key, the chosen stage |
| ProjectForm.FormState.HandleStepChange | frontend/src/components/ProjectForm.jsx:125-165 | a refused installation or connection change leaves the form as it was; a permitted one merges the update into that stage only |
| ProjectForm.FormState.QuickUpdateStep | frontend/src/components/ProjectForm.jsx:218-250 | a request is built exactly when the gate allows the step; it is the one-key body holding the same update `handleStepChange` applies |
| ProjectForm.FormState.ApplyQuickResponse | frontend/src/components/ProjectForm.jsx:252-256 | the server's copy of the chosen stage replaces the form's; the other stages and the basic fields stay |
| ProjectForm.StepChangeEffect | frontend/src/components/ProjectForm.jsx:139-164 | a permitted change sets the stage's status, `updatedBy` and `updatedAt`, stamps exactly the matching date and keeps every other date, and leaves the other stages and the basic fields unchanged |
| ProjectForm.GatesBlockEarlyStages | frontend/src/components/ProjectForm.jsx:129-137 | installation is refused to everyone before clearance is approved while installation is at its default, connection is refused before installation completes, and clearance is never gated |
| ProjectForm.ClientStampsLikeHook | frontend/src/components/ProjectForm.jsx:145-156 | the client stamps `appliedDate`, `receivedDate` or `completedDate` exactly for the statuses that trigger the server's hook, and running the hook at the same time over a stored project with the client's update applied changes nothing more |
| ProjectForm.QuickUpdateOnServer | frontend/src/components/ProjectForm.jsx:231-253 | a quick update the client's gates let through, by any role, sets that stage's status on the server and changes no other stage and no basic field; from a team leader the stage becomes exactly the update object: the status, the date the status calls for, the user and now |
| ProjectForm.LeaderQuickApprovalDropsAppliedDate | frontend/src/components/ProjectForm.jsx:231-253 | a team leader's quick approval of a clearance that was applied for is saved with `receivedDate` stamped and `appliedDate` gone |
| ProjectForm.Find | frontend/src/components/ProjectForm.jsx:290 | `find` returns the first option with the token, or none exactly when no option has it |
| ProjectForm.StepLabel | frontend/src/components/ProjectForm.jsx:266-292 | the label shown is the raw token or the caption of an option of that stage whose token it is |
| ProjectForm.StepLabelLookup | frontend/src/components/ProjectForm.jsx:266-292 | every token of a stage gets that stage's table label; an unknown token or stage name comes back unchanged |
| KeyOrder.LexIrreflexive | frontend/src/components/Projects.jsx:88-92 | no string sorts before itself |
| KeyOrder.LexTransitive | frontend/src/components/Projects.jsx:88-92 | string order is transitive |
| KeyOrder.LexTotal | frontend/src/components/Projects.jsx:88-92 | of two different strings one sorts before the other |
| KeyOrder.Irreflexive | frontend/src/components/Projects.jsx:88-92 | no key is less than itself |
| KeyOrder.Transitive | frontend/src/components/Projects.jsx:88-92 | key order is transitive |
| KeyOrder.Trichotomy | frontend/src/components/Projects.jsx:88-92 | two keys are equal or ordered one way, never both ways |
| ProjectList.KeepOnly | frontend/src/components/Projects.jsx:40-50 | the filter keeps each project that passes the test as often as it occurs, and drops the rest |
| ProjectList.FilterSemantics | frontend/src/components/Projects.jsx:38-50 | `all` and unknown filters keep the list as it is; `clearance`, `installation` and `connection` keep exactly the projects at `clearance_approved`, `installation_completed` and `connection_complete` |
| ProjectList.KeepAllIsIdentity | frontend/src/components/Projects.jsx:48 | a filter value that is not a stage name keeps every project in order |
| ProjectList.Lower | frontend/src/components/Projects.jsx:58-59 | lower-casing keeps the length and maps each character on its own |
| ProjectList.CompareMeaning | frontend/src/components/Projects.jsx:88-92 | the comparator answers 1 or -1; ascending asks for a swap exactly when the second key is smaller, descending exactly when it is larger; equal keys give -1 both ways |
| ProjectList.Flip | frontend/src/components/Projects.jsx:88-92 | two projects the comparator would swap are in order the other way round |
| ProjectList.InOrderTransitive | frontend/src/components/Projects.jsx:88-92 | the order the comparator allows is transitive |
| ProjectList.SortInPlace | frontend/src/components/Projects.jsx:53-93 | sorting rearranges the array, keeping its multiset, into the comparator's order |
| ProjectList.Insert | frontend/src/components/Projects.jsx:53-93 | one insertion pass extends the sorted prefix by one, keeps the multiset and leaves everything after the inserted element unchanged |
| ProjectList.FilterAndSort | frontend/src/components/Projects.jsx:35-96 | the shown list is a permutation of the filtered projects in the comparator's order |
| ProjectList.StrictWhenKeysDistinct | frontend/src/components/Projects.jsx:88-92 | with pairwise distinct keys, the sorted list is strictly ascending under `asc` and strictly descending otherwise |
| ProjectList.UnlistedColumnsSortByCreation | frontend/src/components/Projects.jsx:56-85 | the "Project Number" column and any unlisted column sort by creation time |
| ProjectList.NameSortIgnoresCase | frontend/src/components/Projects.jsx:57-59 | names equal up to ASCII case are never swapped |
| ProjectList.Toggled | frontend/src/components/Projects.jsx:98-105 | the order after a click is always `asc` or `desc` |
| ProjectList.ToggleSemantics | frontend/src/components/Projects.jsx:98-105 | a click on the active column flips the order, a click on another column selects it in descending order, and two clicks on one column restore the state |
| ProjectList.IconSemantics | frontend/src/components/Projects.jsx:107-110 | the neutral icon shows exactly on inactive columns, and the active column shows ↑ exactly when ascending |
| ProjectList.SortControls.HandleSort | frontend/src/components/Projects.jsx:98-105 | the click handler moves the sort state to the toggled state |
| ProjectList.ListBadge | frontend/src/components/Projects.jsx:112-148 | every badge has one of the four classes, and a label it shows is one of the table's labels |
| ProjectList.ListBadgeTotal | frontend/src/components/Projects.jsx:112-148 | a token has a label exactly when it is one of the 14; an unknown token has no label and the pending class |
| ProjectList.ListBadgeClasses | frontend/src/components/Projects.jsx:112-148 | only the three stage milestones show the completed class, and only a rejected clearance shows the rejected class |
| Dashboard.DashboardBadge | frontend/src/components/Dashboard.jsx:29-55 | every badge has one of the four classes, and a category it shows is one of the four categories |
| Dashboard.CategoriesTotal | frontend/src/components/Dashboard.jsx:29-55 | exactly the 14 tokens have a category, it is one of Pending, In Progress, Completed and Rejected, and an unknown token gets the pending class |
| Dashboard.CategoryMeaning | frontend/src/components/Dashboard.jsx:30-45 | exactly the three milestones are Completed, exactly `clearance_rejected` is Rejected, and the three stage defaults are Pending |
| Reports.Decimal | frontend/src/components/Reports.jsx:35 | the size is written with digits and a minus sign only |
| Reports.DecimalReadsBack | frontend/src/components/Reports.jsx:35 | reading the written size back gives the size; the text is non-empty, starts with a minus exactly for a negative size, and has no leading zero unless the size is 0 |
| Reports.RowsOf | frontend/src/components/Reports.jsx:30-39 | one row per project, in input order |
| Reports.QuoteAll | frontend/src/components/Reports.jsx:42 | each field of a row is wrapped in quotes, in order |
| Reports.LinesOf | frontend/src/components/Reports.jsx:41-42 | one line per row, in order |
| Reports.TableShape | frontend/src/components/Reports.jsx:28-39 | the table's first row is the header, row `i + 1` is project `i`'s row, and every row has the header's eight cells |
| Reports.PlainFieldRoundTrip | frontend/src/components/Reports.jsx:42 | a quoted field without quotes is read back whole |
| Reports.DoubledFieldRoundTrip | frontend/src/components/Reports.jsx:42 | a quoted field with its quotes doubled is read back whole |
| Reports.LineRoundTrip | frontend/src/components/Reports.jsx:42 | a line of quoted fields joined by commas is read back as its row |
| Reports.LineThenMore | frontend/src/components/Reports.jsx:41-43 | a line followed by a newline is read as its row in front of what follows |
| Reports.CsvRoundTrip | frontend/src/components/Reports.jsx:41-43 | the reader recovers every table whose cells have doubled quotes or no quotes |
| Reports.SplitJoin | frontend/src/components/Reports.jsx:43 | joining newline-free lines with newlines and splitting again gives the lines back |
| Reports.HeaderFirst | frontend/src/components/Reports.jsx:28-41 | the report starts with the header line, and is only that line when there are no projects |
| Reports.ExportLines | frontend/src/components/Reports.jsx:30-43 | without newlines in the fields, the report has `projects.length + 1` lines: the header, then each project's eight quoted cells in input order, with no trailing newline |
| Reports.ExportRoundTrip | frontend/src/components/Reports.jsx:27-43 | without quotes in the fields, a quote-aware reader gets the header and every project's eight cells back |
| Reports.UndoubledQuoteBreaksRoundTrip | frontend/src/components/Reports.jsx:42 | a project number `A"1` makes the report unreadable: the field closes early and the reader stops |
| Reports.RfcRoundTrip | frontend/src/components/Reports.jsx:42 | with quotes doubled, the reader gets every report back whatever the fields hold |

## Left out

- **Mongoose `isModified`.** The model reads `isModified('x.status')` as "the status differs from the stored one", and for a new document as "differs from the schema default". Mongoose does otherwise: the routes reassign whole stage objects, and Mongoose marks a reassigned nested path modified even when it holds the value it had. So on the server, an update that carries a stage at a trigger status re-stamps that stage's date even when the status did not change.
- ProjectModel.HookIdempotent: holds only under the model's reading of `isModified`. In Mongoose, saving again with the same stage object reassigned re-stamps the date with the new time.
- ProjectRoutes.LeaderClearsDates: holds only under the model's reading of `isModified`. In Mongoose, when the kept status is `clearance_applied`, the hook stamps `appliedDate` with now again instead of leaving it cleared; the date is cleared only under any other status.
- ProjectModel.ProjectDocument.Set: a team leader's stage object without a `status` keeps the stored status. Mongoose would leave the status unset. Every other sub-field the object lacks does become unset, as in the source.
- **Malformed ids.** `Project.findById` with a route id that is not a valid ObjectId throws a CastError, and the route answers 500 (backend/routes/projects.js:45, 105-106). The model's ids are opaque strings, so every id missing from the store answers 404.
- **Body contents.** Body keys outside the schema are not modelled. Neither are JSON `null` for the basic fields, nor values Mongoose cannot cast, which would fail with 500.
- **Mongoose timestamps.** The `timestamps: true` option's `updatedAt` and the `_id` values are not modelled. `createdAt` is set at creation and never changes.
- **Population.** `populate` of the officer and creator is not modelled; the reply holds the saved project.
- **Other endpoints.** The list endpoint with its sort, the statistics endpoint, authentication, the user routes, the seeding script and server wiring are not modelled. They are plain database queries, foreign library calls or plumbing.
- **Overall project status.** An overall project status derived from the three stages does not appear in the files modelled here, so it is not modelled; the form's completion banner is (`ProjectForm.IsProjectCompleted`).
- **Client plumbing.** Not modelled: `fetchProject`, `handleChange`, `handleSubmit`, axios, `alert`, `navigate`, React hooks and every piece of JSX. `handleSubmit` builds the body with `parseFloat(size)`, which is floating point. `setFormData` is a plain state update.
- ProjectForm.QuickBody: with no signed-in user, `updatedBy: user?.id` is `undefined` and JSON drops the key. The model sends the key with no user.
- **Sizes.** A size is an integer: floating-point sizes, numeric comparison of fractions and JavaScript's number-to-string for fractions are not modelled.
- ProjectList.Lower: `toLowerCase` is modelled for ASCII letters only.
- KeyOrder.Less: strings compare by character (code point); JavaScript compares UTF-16 code units, which differ only beyond the Basic Multilingual Plane. Keys of different kinds never meet in one column; the model still orders numbers first to keep the order total.
- ProjectList.SortInPlace: the browser's own sort algorithm is not modelled. The model proves that the insertion sort yields a permutation in the comparator's order. Equal keys make the comparator inconsistent (it returns -1 both ways), so the order of tied projects is engine-specific and not stated.
- **Sort controls.** The sort-field and sort-order select boxes set the state directly and are not modelled beyond `handleSort`.
- **Dates and download.** Date formatting, `Date` objects (replaced by a `nat` time) and the Blob download of the CSV are browser I/O and are not modelled.
- **Concurrency.** Concurrent requests and their last-writer-wins races are outside this sequential model.

## Findings

| source | as written | input that shows it | evidently intended | confidence | as-written member | corrected member |
|---|---|---|---|---|---|---|
| frontend/src/components/Reports.jsx:42 | each field is wrapped in double quotes, and quotes inside a field are left single | a project whose number is `A"1`: its cell is written `"A"1"`, the field closes after `A` and a reader meets `1` where a comma or newline must follow | double every quote inside a field, as section 2, rule 7 of RFC 4180 requires, so that every report reads back | not executed; proved on the model | Reports.UndoubledQuoteBreaksRoundTrip | Reports.RfcRoundTrip |
