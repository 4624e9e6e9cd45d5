/** The entities of the dashboard that the modelled logic touches, with the
    enumerations of `Task.status`, `Task.priority` and `User.role`. */
module TaskModel {
  import opened Wrappers

  datatype Status = Todo | InProgress | InReview | Completed
  datatype Priority = Low | Medium | High
  /** `'admin' | 'user'`. */
  datatype Role = Admin | Regular

  datatype User = User(
    id: string,
    name: string,
    email: string,
    avatar: string,
    role: Role,
    createdAt: string,
    updatedAt: string)

  datatype Task = Task(
    id: string,
    title: string,
    description: string,
    status: Status,
    priority: Priority,
    dueDate: string,
    assigneeId: string,
    projectId: Option<string>,
    tags: seq<string>,
    createdAt: string,
    updatedAt: string)

  /** Position of a status in the workflow todo < in-progress < in-review < completed. */
  function Rank(s: Status): nat {
    match s
    case Todo => 0
    case InProgress => 1
    case InReview => 2
    case Completed => 3
  }

  /** The status literal as the backend and the filter options spell it. */
  function StatusName(s: Status): string {
    match s
    case Todo => "todo"
    case InProgress => "in-progress"
    case InReview => "in-review"
    case Completed => "completed"
  }

  function PriorityName(p: Priority): string {
    match p
    case Low => "low"
    case Medium => "medium"
    case High => "high"
  }

  /** The workflow order is total: a status is determined by its rank. */
  lemma RankInjective(s: Status, t: Status)
    ensures Rank(s) == Rank(t) ==> s == t
  {
  }
}
