// The project list of frontend/src/components/Projects.jsx: the stage
// filter, the column sort, the sort controls and the status badges.
module ProjectList {

  import opened Options
  import opened Vocabulary
  import opened ProjectModel
  import opened KeyOrder

  // ---------------------------------------------------------------- filter

  /** The per-project test of a stage filter; an unknown filter keeps all. */
  predicate Keeps(filter: string, p: Project) {
    if filter == "clearance" then p.clearance.status == ClearanceApproved
    else if filter == "installation" then p.installation.status == InstallationCompleted
    else if filter == "connection" then p.connection.status == ConnectionComplete
    else true
  }

  /** `projects.filter(...)`: the kept projects, each as often as before. */
  function KeepOnly(ps: seq<Project>, filter: string): (r: seq<Project>)
    ensures forall p :: multiset(r)[p] == if Keeps(filter, p) then multiset(ps)[p] else 0
    ensures |r| <= |ps|
  {
    if ps == [] then []
    else
      assert ps == [ps[0]] + ps[1..];
      (if Keeps(filter, ps[0]) then [ps[0]] else []) + KeepOnly(ps[1..], filter)
  }

  /** The status filter: `all` skips filtering altogether. */
  function Filtered(ps: seq<Project>, filter: string): seq<Project> {
    if filter == "all" then ps else KeepOnly(ps, filter)
  }

  /** `all` and any value other than the three stage names keep the list as
      it is; a stage name keeps exactly the projects past that stage's
      milestone, each as often as it appears. */
  lemma FilterSemantics(ps: seq<Project>, filter: string)
    ensures filter !in ["clearance", "installation", "connection"] ==> Filtered(ps, filter) == ps
    ensures filter == "clearance" ==>
      forall p :: multiset(Filtered(ps, filter))[p] == if p.clearance.status == ClearanceApproved then multiset(ps)[p] else 0
    ensures filter == "installation" ==>
      forall p :: multiset(Filtered(ps, filter))[p] == if p.installation.status == InstallationCompleted then multiset(ps)[p] else 0
    ensures filter == "connection" ==>
      forall p :: multiset(Filtered(ps, filter))[p] == if p.connection.status == ConnectionComplete then multiset(ps)[p] else 0
  {
    if filter != "all" && filter !in ["clearance", "installation", "connection"] {
      KeepAllIsIdentity(ps, filter);
    }
  }

  lemma {:induction false} KeepAllIsIdentity(ps: seq<Project>, filter: string)
    requires filter !in ["clearance", "installation", "connection"]
    ensures KeepOnly(ps, filter) == ps
  {
    if ps != [] {
      KeepAllIsIdentity(ps[1..], filter);
      assert ps == [ps[0]] + ps[1..];
    }
  }

  // ------------------------------------------------------------------ sort

  function LowerChar(c: char): char {
    if 'A' <= c <= 'Z' then (c as int + 32) as char else c
  }

  /** `toLowerCase()` on ASCII letters. */
  function Lower(s: string): (r: string)
    ensures |r| == |s| && forall i :: 0 <= i < |s| ==> r[i] == LowerChar(s[i])
  {
    if s == [] then [] else [LowerChar(s[0])] + Lower(s[1..])
  }

  /** The key a column sorts by; any other column sorts by creation time. */
  function SortKey(p: Project, field: string): Key {
    if field == "name" then Text(Lower(p.name))
    else if field == "size" then Number(p.size)
    else if field == "systemType" then Text(p.systemType)
    else if field == "clearance" then Text(p.clearance.status)
    else if field == "installation" then Text(p.installation.status)
    else if field == "connection" then Text(p.connection.status)
    else Number(p.createdAt)
  }

  /** The comparator handed to `sort`: 1 asks for `b` before `a`. Equal keys
      give -1 in both orders. */
  function Compare(a: Project, b: Project, field: string, order: string): int {
    if order == "asc" then (if Less(SortKey(b, field), SortKey(a, field)) then 1 else -1)
    else (if Less(SortKey(a, field), SortKey(b, field)) then 1 else -1)
  }

  /** `a` may stay before `b`: the comparator does not ask to swap them. */
  predicate InOrder(a: Project, b: Project, field: string, order: string) {
    Compare(a, b, field, order) == -1
  }

  predicate SortedBy(s: seq<Project>, field: string, order: string) {
    forall i, j :: 0 <= i < j < |s| ==> InOrder(s[i], s[j], field, order)
  }

  /** Two projects the comparator would swap are in order the other way. */
  lemma Flip(a: Project, b: Project, field: string, order: string)
    requires !InOrder(a, b, field, order)
    ensures InOrder(b, a, field, order)
  {
    Trichotomy(SortKey(a, field), SortKey(b, field));
  }

  lemma InOrderTransitive(a: Project, b: Project, c: Project, field: string, order: string)
    requires InOrder(a, b, field, order) && InOrder(b, c, field, order)
    ensures InOrder(a, c, field, order)
  {
    var ka, kb, kc := SortKey(a, field), SortKey(b, field), SortKey(c, field);
    Trichotomy(ka, kb);
    Trichotomy(kb, kc);
    Trichotomy(ka, kc);
    if order == "asc" {
      if Less(kc, ka) {
        if Less(kb, kc) {
          Transitive(kb, kc, ka);
        }
      }
    } else {
      if Less(ka, kc) {
        if Less(kc, kb) {
          Transitive(ka, kc, kb);
        }
      }
    }
  }

  /** The comparator sorts by the key alone: `asc` asks for a swap exactly
      when the second key is smaller, `desc` exactly when it is larger. */
  lemma CompareMeaning(a: Project, b: Project, field: string, order: string)
    ensures Compare(a, b, field, order) == 1 || Compare(a, b, field, order) == -1
    ensures order == "asc" ==> (Compare(a, b, field, order) == 1 <==> Less(SortKey(b, field), SortKey(a, field)))
    ensures order != "asc" ==> (Compare(a, b, field, order) == 1 <==> Less(SortKey(a, field), SortKey(b, field)))
    ensures SortKey(a, field) == SortKey(b, field) ==> Compare(a, b, field, order) == -1 && Compare(b, a, field, order) == -1
  {
    Irreflexive(SortKey(a, field));
  }

  /** `filtered.sort(comparator)`, as an insertion sort that swaps neighbours
      the comparator puts the other way round. */
  method SortInPlace(a: array<Project>, field: string, order: string)
    modifies a
    ensures multiset(a[..]) == multiset(old(a[..]))
    ensures SortedBy(a[..], field, order)
  {
    if a.Length == 0 {
      return;
    }
    for i := 1 to a.Length
      invariant multiset(a[..]) == multiset(old(a[..]))
      invariant SortedRange(a[..], 0, i, field, order)
    {
      Insert(a, i, field, order);
    }
  }

  predicate SortedRange(s: seq<Project>, lo: nat, hi: nat, field: string, order: string)
    requires lo <= hi <= |s|
  {
    forall k, m :: lo <= k < m < hi ==> InOrder(s[k], s[m], field, order)
  }

  /** The state of one insertion pass: the moving project sits at `j`, the
      projects left of it and right of it (up to `i`) are sorted, every one
      left of it belongs before every one right of it, and it belongs before
      every one right of it. */
  predicate Inserting(s: seq<Project>, j: nat, i: nat, field: string, order: string)
    requires j <= i < |s|
  {
    && SortedRange(s, 0, j, field, order)
    && SortedRange(s, j + 1, i + 1, field, order)
    && (forall k, m :: 0 <= k < j < m <= i ==> InOrder(s[k], s[m], field, order))
    && (forall m :: j < m <= i ==> InOrder(s[j], s[m], field, order))
  }

  /** Swapping the moving project with a left neighbour that belongs after
      it keeps the pass's invariant and the multiset. */
  lemma SwapStep(s: seq<Project>, j: nat, i: nat, field: string, order: string)
    requires 0 < j <= i < |s|
    requires Inserting(s, j, i, field, order)
    requires !InOrder(s[j - 1], s[j], field, order)
    ensures Inserting(s[j - 1 := s[j]][j := s[j - 1]], j - 1, i, field, order)
    ensures multiset(s[j - 1 := s[j]][j := s[j - 1]]) == multiset(s)
  {
    Flip(s[j - 1], s[j], field, order);
  }

  /** A pass stops at the front or behind a project that may stay before
      the moving one; the whole range up to `i` is then sorted. */
  lemma InsertDone(s: seq<Project>, j: nat, i: nat, field: string, order: string)
    requires j <= i < |s|
    requires Inserting(s, j, i, field, order)
    requires j == 0 || InOrder(s[j - 1], s[j], field, order)
    ensures SortedRange(s, 0, i + 1, field, order)
  {
    forall k, m | 0 <= k < m <= i
      ensures InOrder(s[k], s[m], field, order)
    {
      if m == j && k < j - 1 {
        InOrderTransitive(s[k], s[j - 1], s[j], field, order);
      }
    }
  }

  /** One pass of the insertion sort: moves `a[i]` left past every neighbour
      the comparator puts after it, leaving everything after `i` alone. */
  method Insert(a: array<Project>, i: nat, field: string, order: string)
    requires i < a.Length
    requires SortedRange(a[..], 0, i, field, order)
    modifies a
    ensures multiset(a[..]) == multiset(old(a[..]))
    ensures SortedRange(a[..], 0, i + 1, field, order)
    ensures a[i + 1..] == old(a[i + 1..])
  {
    var j := i;
    while j > 0 && Compare(a[j - 1], a[j], field, order) == 1
      invariant 0 <= j <= i
      invariant multiset(a[..]) == multiset(old(a[..]))
      invariant Inserting(a[..], j, i, field, order)
      invariant a[i + 1..] == old(a[i + 1..])
    {
      ghost var s := a[..];
      SwapStep(s, j, i, field, order);
      a[j - 1], a[j] := a[j], a[j - 1];
      assert a[..] == s[j - 1 := s[j]][j := s[j - 1]];
      j := j - 1;
    }
    InsertDone(a[..], j, i, field, order);
  }

  /** `filterAndSortProjects`: the filtered projects, rearranged into the
      comparator's order. */
  method FilterAndSort(projects: seq<Project>, filter: string, field: string, order: string) returns (r: seq<Project>)
    ensures multiset(r) == multiset(Filtered(projects, filter))
    ensures SortedBy(r, field, order)
  {
    var filtered := Filtered(projects, filter);
    var a := new Project[|filtered|](i requires 0 <= i < |filtered| => filtered[i]);
    assert a[..] == filtered;
    SortInPlace(a, field, order);
    r := a[..];
  }

  /** With pairwise distinct keys the sorted list is strictly ascending under
      `asc` and strictly descending otherwise. */
  lemma StrictWhenKeysDistinct(s: seq<Project>, field: string, order: string)
    requires SortedBy(s, field, order)
    requires forall i, j :: 0 <= i < j < |s| ==> SortKey(s[i], field) != SortKey(s[j], field)
    ensures order == "asc" ==> forall i, j :: 0 <= i < j < |s| ==> Less(SortKey(s[i], field), SortKey(s[j], field))
    ensures order != "asc" ==> forall i, j :: 0 <= i < j < |s| ==> Less(SortKey(s[j], field), SortKey(s[i], field))
  {
    forall i, j | 0 <= i < j < |s|
      ensures order == "asc" ==> Less(SortKey(s[i], field), SortKey(s[j], field))
      ensures order != "asc" ==> Less(SortKey(s[j], field), SortKey(s[i], field))
    {
      Trichotomy(SortKey(s[i], field), SortKey(s[j], field));
    }
  }

  /** The "Project Number" header has no case of its own: it sorts by creation
      time, as does any unknown column. */
  lemma UnlistedColumnsSortByCreation(p: Project, field: string)
    requires field !in ["name", "size", "systemType", "clearance", "installation", "connection"]
    ensures SortKey(p, field) == Number(p.createdAt)
    ensures SortKey(p, "projectNumber") == Number(p.createdAt)
  {
  }

  /** Names sort without regard to ASCII case. */
  lemma NameSortIgnoresCase(p: Project, q: Project, order: string)
    requires Lower(p.name) == Lower(q.name)
    ensures Compare(p, q, "name", order) == -1 && Compare(q, p, "name", order) == -1
  {
    Irreflexive(SortKey(p, "name"));
  }

  // --------------------------------------------------------- sort controls

  /** The `sortField`/`sortOrder` state. */
  datatype SortState = SortState(field: string, order: string)

  const InitialSort := SortState("createdAt", "desc")

  /** `handleSort(field)` as a state transition. */
  function Toggled(s: SortState, field: string): (t: SortState)
    ensures t.order == "asc" || t.order == "desc"
  {
    if s.field == field then s.(order := if s.order == "asc" then "desc" else "asc")
    else SortState(field, "desc")
  }

  /** `getSortIcon(field)`. */
  function SortIcon(s: SortState, field: string): string {
    if s.field != field then "\U{2195}\U{FE0F}"
    else if s.order == "asc" then "↑" else "↓"
  }

  /** Clicking the active column flips the order; clicking another column
      selects it in descending order; two clicks on the same column restore
      the state. */
  lemma ToggleSemantics(s: SortState, field: string)
    ensures s.field == field ==> Toggled(s, field).field == field && (Toggled(s, field).order == "asc" <==> s.order != "asc")
    ensures s.field != field ==> Toggled(s, field) == SortState(field, "desc")
    ensures Toggled(s, field).field == field
    ensures s.order in ["asc", "desc"] && s.field == field ==> Toggled(Toggled(s, field), field) == s
  {
  }

  /** The icon marks only the active column, with the arrow for its order. */
  lemma IconSemantics(s: SortState, field: string)
    ensures SortIcon(s, field) == "\U{2195}\U{FE0F}" <==> s.field != field
    ensures s.field == field ==> (SortIcon(s, field) == "↑" <==> s.order == "asc")
    ensures SortIcon(Toggled(s, field), field) != "\U{2195}\U{FE0F}"
  {
  }

  /** The list page's sort controls. */
  class SortControls {
    var state: SortState

    constructor ()
      ensures state == InitialSort
    {
      state := InitialSort;
    }

    method HandleSort(field: string)
      modifies this
      ensures state == Toggled(old(state), field)
    {
      if state.field == field {
        state := state.(order := if state.order == "asc" then "desc" else "asc");
      } else {
        state := SortState(field, "desc");
      }
    }

    function Icon(field: string): string
      reads this
    {
      SortIcon(state, field)
    }
  }

  // ---------------------------------------------------------------- badges

  /** `statusMap`: the list's short label per status token. */
  const ListLabels: map<string, string> := map[
    PendingToApply := "Pending",
    ClearanceApplied := "Applied",
    ClearanceApproved := "Approved",
    ClearanceRejected := "Rejected",
    CapacityReduced := "Reduced",
    ClearanceReceived := "Received",
    SiteVisitCompleted := "Site Visit Done",
    PaymentReceived := "60% Paid",
    OngoingInstallation := "Ongoing",
    InstallationCompleted := "Completed",
    DocumentSubmission := "Docs Submitted",
    EstimatePaid := "Estimate Paid",
    ConnectionComplete := "Complete",
    Procedure := "Procedure"]

  /** The badge class per label. */
  const LabelClasses: map<string, string> := map[
    "Pending" := "badge-pending",
    "Applied" := "badge-in-progress",
    "Approved" := "badge-completed",
    "Rejected" := "badge-rejected",
    "Reduced" := "badge-in-progress",
    "Received" := "badge-pending",
    "Site Visit Done" := "badge-in-progress",
    "60% Paid" := "badge-in-progress",
    "Ongoing" := "badge-in-progress",
    "Completed" := "badge-completed",
    "Docs Submitted" := "badge-pending",
    "Estimate Paid" := "badge-in-progress",
    "Complete" := "badge-completed",
    "Procedure" := "badge-in-progress"]

  /** `getStatusBadge(status)`: the label when the token is known, and the
      class of that label, falling back to `badge-pending`. */
  function ListBadge(status: string): (b: Badge)
    ensures b.cls in ["badge-pending", "badge-in-progress", "badge-completed", "badge-rejected"]
    ensures b.caption.Some? ==> b.caption.value in LabelClasses
  {
    var caption := if status in ListLabels then Some(ListLabels[status]) else None;
    var cls := if caption.Some? && caption.value in LabelClasses then LabelClasses[caption.value] else "badge-pending";
    Badge(caption, cls)
  }

  /** Every token has a label; an unknown token has no label and the
      pending class. */
  lemma ListBadgeTotal(status: string)
    ensures status in AllStatuses <==> ListBadge(status).caption.Some?
    ensures status !in AllStatuses ==> ListBadge(status) == Badge(None, "badge-pending")
  {
  }

  /** Only the three milestones show as completed, and only a rejected
      clearance as rejected. */
  lemma ListBadgeClasses(status: string)
    ensures ListBadge(status).cls == "badge-completed" <==>
      status in [ClearanceApproved, InstallationCompleted, ConnectionComplete]
    ensures ListBadge(status).cls == "badge-rejected" <==> status == ClearanceRejected
  {
  }
}
