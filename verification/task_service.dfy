/** The task-management service built on the shared base client: the query
    strings of the task list, team list and task count, the body of a project
    creation, and how each operation settles once its fetch has resolved or
    thrown.

    A query is the ordered list of pairs a `URLSearchParams` holds; its
    percent-encoded text is not modelled. */
module TaskService {
  import opened Wrappers
  import opened Text
  import opened Records
  import opened Seqs
  import opened TaskModel
  import BaseService

  /** The arguments of `listTasks` and `listTeams`; `None` is a missing key.
      A filter object is given by its entries in order, so its keys are
      distinct. */
  datatype ListParams = ListParams(page: int, pageSize: int, search: Option<string>, filters: Option<Entries>)

  predicate NonEmptyValue(e: (string, string)) {
    e.1 != ""
  }

  /** The filter entries `listTasks` appends: those whose value is truthy, in
      entry order. */
  function AppendedFilters(filters: Option<Entries>): (r: Entries)
    ensures forall e :: e in r <==> filters.Some? && e in filters.value && e.1 != ""
    ensures filters.Some? ==> IsSubseq(r, filters.value)
    ensures filters.None? ==> r == []
  {
    if filters.Some? then
      FilterIsSubseq(NonEmptyValue, filters.value);
      Filter(NonEmptyValue, filters.value)
    else []
  }

  /** `listTasks`: page and pageSize first, then the trimmed search if it is
      not blank, then the non-empty filters, each appended so a filter named
      like an earlier key adds a second pair instead of replacing it. */
  function ListTasksQuery(p: ListParams): (q: Entries)
    ensures |q| >= 2
    ensures q[0] == ("page", IntToString(p.page)) && q[1] == ("pageSize", IntToString(p.pageSize))
    ensures p.search.Some? && Trim(p.search.value) != "" ==>
      |q| >= 3 && q[2] == ("search", Trim(p.search.value)) && q[3..] == AppendedFilters(p.filters)
    ensures !(p.search.Some? && Trim(p.search.value) != "") ==> q[2..] == AppendedFilters(p.filters)
  {
    var q := [("page", IntToString(p.page)), ("pageSize", IntToString(p.pageSize))];
    var q := if p.search.Some? && Trim(p.search.value) != "" then q + [("search", Trim(p.search.value))] else q;
    q + AppendedFilters(p.filters)
  }

  /** `listTeams` writes its search test as `search && search.trim()`. */
  function ListTeamsQuery(p: ListParams): (q: Entries)
    ensures |q| >= 2 && q[..2] == [("page", IntToString(p.page)), ("pageSize", IntToString(p.pageSize))]
  {
    var base := [("page", IntToString(p.page)), ("pageSize", IntToString(p.pageSize))];
    var withSearch :=
      if p.search.Some? && Truthy(p.search.value) && Truthy(Trim(p.search.value)) then
        base + [("search", Trim(p.search.value))]
      else base;
    withSearch + AppendedFilters(p.filters)
  }

  /** The two list operations build the same query from the same arguments. */
  lemma ListTeamsMatchesListTasks(p: ListParams)
    ensures ListTeamsQuery(p) == ListTasksQuery(p)
  {
  }

  /** A blank search is dropped. */
  lemma BlankSearchDropped(p: ListParams)
    ensures ListTasksQuery(p.(search := Some(" "), filters := None))
         == [("page", IntToString(p.page)), ("pageSize", IntToString(p.pageSize))]
  {
    assert Trim(" ") == "" by { TrimEmptyIff(" "); }
  }

  /** A filter that repeats a key already in the query is appended beside it:
      the list query then holds two `page` pairs. */
  lemma FilterDuplicatesPage(p: ListParams, v: string)
    requires p.search.None? && v != ""
    ensures var q := ListTasksQuery(p.(filters := Some([("page", v)])));
      |q| == 3 && q[0].0 == "page" && q[2] == ("page", v)
  {
    assert AppendedFilters(Some([("page", v)])) == [("page", v)];
  }

  /** The arguments of `getTasksCount`. */
  datatype CountParams = CountParams(search: Option<string>, filters: Option<Entries>)

  /** `getTasksCount`: the search as given (untrimmed) when it is a non-empty
      string, then every filter together as one JSON text under "filters",
      present whenever a filter object is given, even an empty one.
      `stringify` is `JSON.stringify` of the filter object. */
  function TasksCountQuery(p: CountParams, stringify: Entries -> string): (q: Entries)
    ensures UniqueKeys(q)
    ensures Get(q, "search") == if p.search.Some? && Truthy(p.search.value) then p.search else None
    ensures Get(q, "filters") == if p.filters.Some? then Some(stringify(p.filters.value)) else None
    ensures forall k :: k != "search" && k != "filters" ==> Get(q, k) == None
    ensures |q| == 2 ==> q[0].0 == "search" && q[1].0 == "filters"
  {
    var s := if p.search.Some? && Truthy(p.search.value) then [("search", p.search.value)] else [];
    var f := if p.filters.Some? then [("filters", stringify(p.filters.value))] else [];
    var q := Spread(s, f);
    SpreadKeys(s, f);
    assert forall k :: Get(q, k) == if k in KeySet(f) then Get(f, k) else Get(s, k) by {
      forall k ensures Get(q, k) == if k in KeySet(f) then Get(f, k) else Get(s, k) {
        SpreadGet(s, f, k);
      }
    }
    q
  }

  /** The count keeps a whitespace-only search that the list drops, so the
      two can count different task sets for the same search box. */
  lemma CountAndListDisagreeOnBlankSearch(page: int, pageSize: int, stringify: Entries -> string)
    ensures Get(TasksCountQuery(CountParams(Some(" "), None), stringify), "search") == Some(" ")
    ensures ListTasksQuery(ListParams(page, pageSize, Some(" "), None))
         == [("page", IntToString(page)), ("pageSize", IntToString(pageSize))]
  {
    var p := ListParams(page, pageSize, None, None);
    BlankSearchDropped(p);
    assert p.(search := Some(" "), filters := None) == ListParams(page, pageSize, Some(" "), None);
  }

  datatype ProjectStatus = Active | ProjectCompleted | OnHold

  /** A `Partial<Project>`: every field may be missing. */
  datatype ProjectDraft = ProjectDraft(
    id: Option<string>,
    name: Option<string>,
    description: Option<string>,
    status: Option<ProjectStatus>,
    progress: Option<int>,
    startDate: Option<string>,
    endDate: Option<string>,
    members: Option<seq<User>>,
    tasks: Option<seq<Task>>,
    createdAt: Option<string>,
    updatedAt: Option<string>)

  /** The object `createProject` serialises. A missing field stays missing,
      since `JSON.stringify` leaves out undefined values. */
  datatype ProjectBody = ProjectBody(
    name: Option<string>,
    description: Option<string>,
    endDate: Option<string>,
    startDate: Option<string>,
    status: Option<ProjectStatus>,
    members: Option<seq<User>>)

  function CreateProjectBody(d: ProjectDraft): (b: ProjectBody)
    ensures b.name == d.name && b.description == d.description
    ensures b.endDate == d.endDate && b.startDate == d.startDate
    ensures b.status == d.status && b.members == d.members
  {
    ProjectBody(d.name, d.description, d.endDate, d.startDate, d.status, d.members)
  }

  /** Only the six listed fields reach the server: drafts that differ
      elsewhere (id, progress, tasks, timestamps) send the same body. */
  lemma CreateProjectDropsOtherFields(d: ProjectDraft, e: ProjectDraft)
    requires d.name == e.name && d.description == e.description
    requires d.endDate == e.endDate && d.startDate == e.startDate
    requires d.status == e.status && d.members == e.members
    ensures CreateProjectBody(d) == CreateProjectBody(e)
  {
  }

  /** The service's operations. */
  datatype Operation =
    | ListTasks | GetTasksCount | CreateTask | UpdateTask | DeleteTask
    | GetDashboardStats
    | ListProjects | CreateProject | UpdateProject | DeleteProject
    | ListTeams | CreateTeam | UpdateTeam | DeleteTeam
    | ListUsers | AddTeamMember | RemoveTeamMember

  /** Whether the operation wraps its fetch in a `catch` that calls the error
      reporter. */
  predicate Catches(op: Operation)
    ensures op.ListTasks? || op.GetTasksCount? || op.ListTeams? ==> Catches(op)
  {
    !(op.DeleteTask? || op.ListProjects? || op.CreateProject? || op.UpdateProject?
      || op.DeleteProject? || op.ListUsers?)
  }

  /** The success toast an operation shows, if any. */
  function SuccessMessage(op: Operation): (m: Option<string>)
    ensures (|| op.ListTasks? || op.GetTasksCount? || op.GetDashboardStats?
             || op.ListProjects? || op.ListTeams? || op.ListUsers?) ==> m.None?
    ensures m.Some? ==> Catches(op)
  {
    match op
    case CreateTask => Some("Task created successfully")
    case UpdateTask => Some("Task updated successfully")
    case CreateTeam => Some("Team created successfully")
    case UpdateTeam => Some("Team updated successfully")
    case DeleteTeam => Some("Team deleted successfully")
    case AddTeamMember => Some("Member added successfully")
    case RemoveTeamMember => Some("Member removed successfully")
    case _ => None
  }

  datatype Toast = ErrorToast(text: string) | SuccessToast(text: string)

  /** How a call ends: resolved with the response, or rejected with an error,
      and the toasts shown on the way. */
  datatype Settled<R> = Resolved(value: R, toasts: seq<Toast>) | Rejected(error: BaseService.Thrown, toasts: seq<Toast>)

  /** Settling an operation once its fetch has resolved (with the response)
      or thrown. The error reporter rethrows, so the fallback values after
      it (an empty page, a zero count) are never returned, and the
      operations without a `catch` reject the same way, just without a toast. */
  function Settle<R>(op: Operation, fetched: Result<R, BaseService.Thrown>): (s: Settled<R>)
    ensures s.Resolved? <==> fetched.Success?
    ensures s.Resolved? ==> s.value == fetched.value
    ensures s.Rejected? ==> s.error == fetched.error
    ensures fetched.Success? ==>
      s.toasts == if SuccessMessage(op).Some? then [SuccessToast(SuccessMessage(op).value)] else []
    ensures fetched.Failure? && Catches(op) ==>
      s.toasts == [ErrorToast(BaseService.HandleError(fetched.error).toast)]
    ensures fetched.Failure? && !Catches(op) ==> s.toasts == []
  {
    match fetched
    case Success(v) =>
      Resolved(v, if SuccessMessage(op).Some? then [SuccessToast(SuccessMessage(op).value)] else [])
    case Failure(e) =>
      if Catches(op) then
        var report := BaseService.HandleError(e);
        Rejected(report.rethrown, [ErrorToast(report.toast)])
      else Rejected(e, [])
  }

  /** A failed list never looks like an empty page: whatever the operation,
      a failure reaches the caller as a rejection. */
  lemma FailuresPropagate<R>(op: Operation, e: BaseService.Thrown)
    ensures Settle<R>(op, Failure(e)).Rejected?
    ensures Settle<R>(op, Failure(e)).error == e
  {
  }

  /** A task list call, end to end: the query it sends and how it settles
      after the retrying fetch. `page` is the response's parsed body. */
  function ListTasksCall<R>(c: BaseService.Client, p: ListParams, outcome: nat -> BaseService.Outcome,
                            page: int -> R): (r: (Entries, Settled<R>))
    ensures r.0 == ListTasksQuery(p)
    ensures r.1.Rejected? <==> BaseService.Fetch(c, outcome, 0).result.Failure?
  {
    var run := BaseService.Fetch(c, outcome, 0);
    var fetched: Result<R, BaseService.Thrown> :=
      match run.result
      case Success(status) => Success(page(status))
      case Failure(e) => Failure(e);
    (ListTasksQuery(p), Settle(ListTasks, fetched))
  }
}
