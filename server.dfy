/** The route handlers of the cost tracker over an in-memory store: the four
    collections (projects, phases, cost categories, cost entries) are fields
    of a `Store` that the handlers that write update in place. Each
    collection is a sequence in store order; a query returns matches in that
    order, and `find_one` / `delete_one` select the first match. */
module Server {
  import opened Wrappers
  import opened Calendar
  import opened Records
  import opened CostEntries
  import opened Summaries

  /** The `to_list(1000)` cap on every query the summary and dashboard make. */
  const FetchLimit := 1000

  const ProjectNotFound := "Project not found"
  const ProjectInUse := "Cannot delete project with existing cost entries or phases. Remove them first."
  const ProjectDeleted := "Project deleted successfully"
  const CategoryNotFound := "Cost category not found"
  const CategoryInUse := "Cannot delete category that is used in cost entries. Remove all cost entries with this category first."
  const CategoryDeleted := "Cost category deleted successfully"
  const EntryNotFound := "Cost entry not found"
  const EntryDeleted := "Cost entry deleted"

  /** `cursor.to_list(length)`: the first `length` documents, or all of them. */
  function ToList<T>(s: seq<T>, length: nat): (r: seq<T>)
    ensures |r| == (if |s| <= length then |s| else length)
    ensures r == s[..|r|]
  {
    if |s| <= length then s else s[..length]
  }

  /** The position of the first occurrence of `x`: the document `find_one` and
      `delete_one` select. */
  function FirstIndex<T(==)>(s: seq<T>, x: T): (r: Option<nat>)
    ensures r.None? <==> x !in s
    ensures r.Some? ==> r.value < |s| && s[r.value] == x && x !in s[..r.value]
  {
    if s == [] then None
    else if s[0] == x then Some(0)
    else
      match FirstIndex(s[1..], x)
      case None => None
      case Some(k) =>
        assert s[..k + 1] == [s[0]] + s[1..][..k];
        Some(k + 1)
  }

  /** The sequence without its element at `k`, the others kept in order. */
  function RemoveAt<T>(s: seq<T>, k: nat): (r: seq<T>)
    requires k < |s|
    ensures |r| == |s| - 1
    ensures forall i :: 0 <= i < k ==> r[i] == s[i]
    ensures forall i :: k <= i < |r| ==> r[i] == s[i + 1]
    ensures multiset(r) + multiset{s[k]} == multiset(s)
  {
    assert s == s[..k] + [s[k]] + s[k + 1..];
    s[..k] + s[k + 1..]
  }

  function ProjectIds(ps: seq<Project>): (ids: seq<string>) {
    seq(|ps|, i requires 0 <= i < |ps| => ps[i].id)
  }

  function CategoryIds(cs: seq<Category>): (ids: seq<string>) {
    seq(|cs|, i requires 0 <= i < |cs| => cs[i].id)
  }

  function EntryIds(es: seq<CostEntry>): (ids: seq<string>) {
    seq(|es|, i requires 0 <= i < |es| => es[i].id)
  }

  function EntryProjectIds(es: seq<CostEntry>): (ids: seq<string>) {
    seq(|es|, i requires 0 <= i < |es| => es[i].projectId)
  }

  function EntryCategoryIds(es: seq<CostEntry>): (ids: seq<string>) {
    seq(|es|, i requires 0 <= i < |es| => es[i].categoryId)
  }

  function PhaseProjectIds(phases: seq<Phase>): (ids: seq<string>) {
    seq(|phases|, i requires 0 <= i < |phases| => phases[i].projectId)
  }

  /** `db.cost_entries.find({"project_id": pid})`: the project's entries, in
      store order. */
  function EntriesOfProject(es: seq<CostEntry>, pid: string): (r: seq<CostEntry>)
    ensures forall i :: 0 <= i < |r| ==> r[i].projectId == pid
    ensures forall e :: e in es && e.projectId == pid ==> e in r
    ensures forall e :: multiset(r)[e] == if e.projectId == pid then multiset(es)[e] else 0
  {
    if es == [] then []
    else
      var init, last := es[..|es| - 1], es[|es| - 1];
      assert es == init + [last];
      var r := EntriesOfProject(init, pid);
      if last.projectId == pid then r + [last] else r
  }

  /** `db.phases.find({"project_id": pid})`: the project's phases, in store order. */
  function PhasesOfProject(phases: seq<Phase>, pid: string): (r: seq<Phase>)
    ensures forall i :: 0 <= i < |r| ==> r[i].projectId == pid
    ensures forall p :: p in phases && p.projectId == pid ==> p in r
    ensures forall p :: multiset(r)[p] == if p.projectId == pid then multiset(phases)[p] else 0
  {
    if phases == [] then []
    else
      var init, last := phases[..|phases| - 1], phases[|phases| - 1];
      assert phases == init + [last];
      var r := PhasesOfProject(init, pid);
      if last.projectId == pid then r + [last] else r
  }

  /** The query keeps store order: the matches in two stretches of the store
      are the matches in the first, then those in the second. */
  lemma {:induction false} EntriesOfProjectAppend(a: seq<CostEntry>, b: seq<CostEntry>, pid: string)
    ensures EntriesOfProject(a + b, pid) == EntriesOfProject(a, pid) + EntriesOfProject(b, pid)
    decreases |b|
  {
    if b == [] {
      assert a + b == a;
    } else {
      var init := b[..|b| - 1];
      assert (a + b)[..|a + b| - 1] == a + init;
      assert (a + b)[|a + b| - 1] == b[|b| - 1];
      EntriesOfProjectAppend(a, init, pid);
    }
  }

  lemma {:induction false} PhasesOfProjectAppend(a: seq<Phase>, b: seq<Phase>, pid: string)
    ensures PhasesOfProject(a + b, pid) == PhasesOfProject(a, pid) + PhasesOfProject(b, pid)
    decreases |b|
  {
    if b == [] {
      assert a + b == a;
    } else {
      var init := b[..|b| - 1];
      assert (a + b)[..|a + b| - 1] == a + init;
      assert (a + b)[|a + b| - 1] == b[|b| - 1];
      PhasesOfProjectAppend(a, init, pid);
    }
  }

  /** The request body of `POST /phases`: it has no status, and the budget
      allocation is required. */
  datatype PhaseRequest = PhaseRequest(
    projectId: string,
    name: string,
    description: string,
    budgetAllocation: real,
    startDate: Date,
    endDate: Date)

  /** The phase `create_phase` stores: the request's fields under a fresh id,
      always with a budget allocation and always not started. */
  function NewPhase(req: PhaseRequest, id: string): (p: Phase)
    ensures p.id == id && p.projectId == req.projectId && p.name == req.name && p.description == req.description
    ensures p.startDate == req.startDate && p.endDate == req.endDate
    ensures p.budgetAllocation.Some? && p.Budget() == req.budgetAllocation
    ensures p.status == NotStarted
  {
    Phase(id, req.projectId, req.name, req.description, Some(req.budgetAllocation), req.startDate, req.endDate, NotStarted)
  }

  /** Every entry and every phase belongs to a project that exists. */
  ghost predicate ProjectsReferenced(ps: seq<Project>, phases: seq<Phase>, es: seq<CostEntry>) {
    && (forall i :: 0 <= i < |es| ==> es[i].projectId in ProjectIds(ps))
    && (forall i :: 0 <= i < |phases| ==> phases[i].projectId in ProjectIds(ps))
  }

  /** Every entry uses a cost category that exists. */
  ghost predicate CategoriesReferenced(cs: seq<Category>, es: seq<CostEntry>) {
    forall i :: 0 <= i < |es| ==> es[i].categoryId in CategoryIds(cs)
  }

  /** Removing one record leaves every other id in place. */
  lemma RemovedIds(ids: seq<string>, k: nat, q: string)
    requires k < |ids| && q in ids && q != ids[k]
    ensures q in RemoveAt(ids, k)
  {
    var p :| 0 <= p < |ids| && ids[p] == q;
    if p < k {
      assert RemoveAt(ids, k)[p] == q;
    } else {
      assert RemoveAt(ids, k)[p - 1] == q;
    }
  }

  /** What the project delete guard is for: deleting a project that no entry
      and no phase references leaves every entry and phase with its project. */
  lemma ProjectDeletionKeepsReferences(ps: seq<Project>, phases: seq<Phase>, es: seq<CostEntry>, k: nat)
    requires k < |ps| && ProjectsReferenced(ps, phases, es)
    requires ps[k].id !in EntryProjectIds(es) && ps[k].id !in PhaseProjectIds(phases)
    ensures ProjectsReferenced(RemoveAt(ps, k), phases, es)
  {
    var ids := ProjectIds(ps);
    assert ProjectIds(RemoveAt(ps, k)) == RemoveAt(ids, k);
    forall i | 0 <= i < |es|
      ensures es[i].projectId in ProjectIds(RemoveAt(ps, k))
    {
      assert EntryProjectIds(es)[i] == es[i].projectId;
      RemovedIds(ids, k, es[i].projectId);
    }
    forall i | 0 <= i < |phases|
      ensures phases[i].projectId in ProjectIds(RemoveAt(ps, k))
    {
      assert PhaseProjectIds(phases)[i] == phases[i].projectId;
      RemovedIds(ids, k, phases[i].projectId);
    }
  }

  /** What the category delete guard is for: deleting a category no entry uses
      leaves every entry with its category. */
  lemma CategoryDeletionKeepsReferences(cs: seq<Category>, es: seq<CostEntry>, k: nat)
    requires k < |cs| && CategoriesReferenced(cs, es)
    requires cs[k].id !in EntryCategoryIds(es)
    ensures CategoriesReferenced(RemoveAt(cs, k), es)
  {
    var ids := CategoryIds(cs);
    assert CategoryIds(RemoveAt(cs, k)) == RemoveAt(ids, k);
    forall i | 0 <= i < |es|
      ensures es[i].categoryId in CategoryIds(RemoveAt(cs, k))
    {
      assert EntryCategoryIds(es)[i] == es[i].categoryId;
      RemovedIds(ids, k, es[i].categoryId);
    }
  }

  class Store {
    var projects: seq<Project>
    var phases: seq<Phase>
    var categories: seq<Category>
    var entries: seq<CostEntry>

    constructor ()
      ensures projects == [] && phases == [] && categories == [] && entries == []
    {
      projects, phases, categories, entries := [], [], [], [];
    }

    /** `create_project`: the project is inserted. */
    method CreateProject(p: Project)
      modifies this
      ensures projects == old(projects) + [p]
      ensures phases == old(phases) && categories == old(categories) && entries == old(entries)
    {
      projects := projects + [p];
    }

    /** `create_phase`: the phase built from the request is inserted and
        returned; its project is not checked. */
    method CreatePhase(req: PhaseRequest, id: string) returns (phase: Phase)
      modifies this
      ensures phase == NewPhase(req, id)
      ensures phases == old(phases) + [phase]
      ensures projects == old(projects) && categories == old(categories) && entries == old(entries)
    {
      phase := NewPhase(req, id);
      phases := phases + [phase];
    }

    /** `create_cost_category`: the category is inserted. */
    method CreateCategory(c: Category)
      modifies this
      ensures categories == old(categories) + [c]
      ensures projects == old(projects) && phases == old(phases) && entries == old(entries)
    {
      categories := categories + [c];
    }

    /** `create_cost_entry`: 404 when no category has the request's category
        id; otherwise the entry built from the request and that category's
        name, or the 400 of the amount rule. Only a built entry is stored.
        Neither the project nor the phase is checked, so only the entries'
        categories are sure to exist afterwards. */
    method CreateCostEntry(req: EntryRequest, id: string, today: Date, now: int) returns (r: Result<CostEntry, ApiError>)
      modifies this
      ensures req.categoryId !in CategoryIds(categories) ==> r == Err(NotFound(CategoryNotFound))
      ensures req.categoryId in CategoryIds(categories) ==>
        var k := FirstIndex(CategoryIds(categories), req.categoryId).value;
        r == BuildEntry(req, categories[k].name, id, today, now)
      ensures entries == if r.Ok? then old(entries) + [r.value] else old(entries)
      ensures projects == old(projects) && phases == old(phases) && categories == old(categories)
      ensures old(CategoriesReferenced(categories, entries)) ==> CategoriesReferenced(categories, entries)
    {
      var found := FirstIndex(CategoryIds(categories), req.categoryId);
      if found.None? {
        return Err(NotFound(CategoryNotFound));
      }
      var category := categories[found.value];
      r := BuildEntry(req, category.name, id, today, now);
      if r.Ok? {
        assert r.value.categoryId == CategoryIds(categories)[found.value];
        entries := entries + [r.value];
      }
    }

    /** `delete_project`: 400 while any entry or phase belongs to the project
        (checked first), 404 when no project has the id, otherwise the first
        project with the id is removed and nothing else changes. */
    method DeleteProject(pid: string) returns (r: Result<string, ApiError>)
      modifies this
      ensures r == Err(BadRequest(ProjectInUse))
              <==> pid in EntryProjectIds(entries) || pid in PhaseProjectIds(phases)
      ensures r == Err(NotFound(ProjectNotFound))
              <==> pid !in EntryProjectIds(entries) && pid !in PhaseProjectIds(phases) && pid !in ProjectIds(old(projects))
      ensures r.Ok? <==> pid !in EntryProjectIds(entries) && pid !in PhaseProjectIds(phases) && pid in ProjectIds(old(projects))
      ensures r.Ok? ==> r.value == ProjectDeleted
      ensures r.Ok? ==> projects == RemoveAt(old(projects), FirstIndex(ProjectIds(old(projects)), pid).value)
      ensures r.Err? ==> projects == old(projects)
      ensures phases == old(phases) && categories == old(categories) && entries == old(entries)
      ensures old(ProjectsReferenced(projects, phases, entries)) ==> ProjectsReferenced(projects, phases, entries)
    {
      if pid in EntryProjectIds(entries) || pid in PhaseProjectIds(phases) {
        return Err(BadRequest(ProjectInUse));
      }
      var found := FirstIndex(ProjectIds(projects), pid);
      if found.None? {
        return Err(NotFound(ProjectNotFound));
      }
      if ProjectsReferenced(projects, phases, entries) {
        ProjectDeletionKeepsReferences(projects, phases, entries, found.value);
      }
      projects := RemoveAt(projects, found.value);
      r := Ok(ProjectDeleted);
    }

    /** `delete_cost_category`: 400 while any entry uses the category (checked
        first), 404 when no category has the id, otherwise the first category
        with the id is removed and nothing else changes. */
    method DeleteCategory(cid: string) returns (r: Result<string, ApiError>)
      modifies this
      ensures r == Err(BadRequest(CategoryInUse)) <==> cid in EntryCategoryIds(entries)
      ensures r == Err(NotFound(CategoryNotFound))
              <==> cid !in EntryCategoryIds(entries) && cid !in CategoryIds(old(categories))
      ensures r.Ok? <==> cid !in EntryCategoryIds(entries) && cid in CategoryIds(old(categories))
      ensures r.Ok? ==> r.value == CategoryDeleted
      ensures r.Ok? ==> categories == RemoveAt(old(categories), FirstIndex(CategoryIds(old(categories)), cid).value)
      ensures r.Err? ==> categories == old(categories)
      ensures projects == old(projects) && phases == old(phases) && entries == old(entries)
      ensures old(CategoriesReferenced(categories, entries)) ==> CategoriesReferenced(categories, entries)
    {
      if cid in EntryCategoryIds(entries) {
        return Err(BadRequest(CategoryInUse));
      }
      var found := FirstIndex(CategoryIds(categories), cid);
      if found.None? {
        return Err(NotFound(CategoryNotFound));
      }
      if CategoriesReferenced(categories, entries) {
        CategoryDeletionKeepsReferences(categories, entries, found.value);
      }
      categories := RemoveAt(categories, found.value);
      r := Ok(CategoryDeleted);
    }

    /** `delete_cost_entry`: 404 when no entry has the id, otherwise the first
        entry with the id is removed; nothing guards it. */
    method DeleteCostEntry(eid: string) returns (r: Result<string, ApiError>)
      modifies this
      ensures r.Err? <==> eid !in EntryIds(old(entries))
      ensures r.Err? ==> r.error == NotFound(EntryNotFound) && entries == old(entries)
      ensures r.Ok? ==> r.value == EntryDeleted
      ensures r.Ok? ==> entries == RemoveAt(old(entries), FirstIndex(EntryIds(old(entries)), eid).value)
      ensures projects == old(projects) && phases == old(phases) && categories == old(categories)
    {
      var found := FirstIndex(EntryIds(entries), eid);
      if found.None? {
        return Err(NotFound(EntryNotFound));
      }
      entries := RemoveAt(entries, found.value);
      r := Ok(EntryDeleted);
    }

    /** `get_project_summary`: 404 when no project has the id; otherwise the
        summary of the first such project over its first 1000 entries and its
        first 1000 phases. */
    method GetProjectSummary(pid: string) returns (r: Result<Summary, ApiError>)
      ensures r.Err? <==> pid !in ProjectIds(projects)
      ensures r.Err? ==> r.error == NotFound(ProjectNotFound)
      ensures r.Ok? ==>
                pid in ProjectIds(projects)
                && IsSummaryOf(r.value, projects[FirstIndex(ProjectIds(projects), pid).value],
                               ToList(EntriesOfProject(entries, pid), FetchLimit),
                               ToList(PhasesOfProject(phases, pid), FetchLimit))
    {
      var found := FirstIndex(ProjectIds(projects), pid);
      if found.None? {
        return Err(NotFound(ProjectNotFound));
      }
      var es := ToList(EntriesOfProject(entries, pid), FetchLimit);
      var phs := ToList(PhasesOfProject(phases, pid), FetchLimit);
      var s := Summarize(projects[found.value], es, phs);
      r := Ok(s);
    }

    /** `get_dashboard_data`: the project summary (and its 404), the monthly
        trend and the ten most recent entries, over the same first 1000
        entries. */
    method GetDashboardData(pid: string) returns (r: Result<DashboardData, ApiError>)
      ensures r.Err? <==> pid !in ProjectIds(projects)
      ensures r.Err? ==> r.error == NotFound(ProjectNotFound)
      ensures r.Ok? ==>
                pid in ProjectIds(projects)
                && IsDashboardOf(r.value, projects[FirstIndex(ProjectIds(projects), pid).value],
                                 ToList(EntriesOfProject(entries, pid), FetchLimit),
                                 ToList(PhasesOfProject(phases, pid), FetchLimit))
    {
      var found := FirstIndex(ProjectIds(projects), pid);
      if found.None? {
        return Err(NotFound(ProjectNotFound));
      }
      var es := ToList(EntriesOfProject(entries, pid), FetchLimit);
      var phs := ToList(PhasesOfProject(phases, pid), FetchLimit);
      var d := Dashboard(projects[found.value], es, phs);
      r := Ok(d);
    }
  }
}
