/** The per-row action buttons of the tasks table: which controls are shown
    for a task, and the copy of the status table this component declares. */
module TaskActions {
  import opened Wrappers
  import opened TaskModel
  import TasksPage

  /** The component's own `nextStatus` table. */
  function NextStatus(s: Status): (r: Status)
    ensures Rank(s) <= Rank(r)
    ensures r == s <==> s == Completed
    ensures s != Completed ==> Rank(r) == Rank(s) + 1
  {
    match s
    case Todo => InProgress
    case InProgress => InReview
    case InReview => Completed
    case Completed => Completed
  }

  /** The two copies of the table agree entry for entry. */
  lemma SameTableAsTasksPage(s: Status)
    ensures NextStatus(s) == TasksPage.NextStatus(s)
  {
  }

  /** A button and the task its click hands to the callback. */
  datatype Control = MoveNext(task: Task) | Edit(task: Task) | Delete(task: Task)

  function Controls(t: Task): (r: seq<Control>)
    ensures MoveNext(t) in r <==> t.status != Completed
    ensures Edit(t) in r && Delete(t) in r
    ensures forall i :: 0 <= i < |r| ==> r[i].task == t
  {
    (if t.status != Completed then [MoveNext(t)] else []) + [Edit(t), Delete(t)]
  }

  /** Whenever the move control is offered, clicking it sends exactly one
      status update, for this task, one step further. */
  lemma OfferedMoveUpdates(t: Task)
    requires MoveNext(t) in Controls(t)
    ensures TasksPage.MoveToNextStatus(t) == Some(TasksPage.StatusUpdate(t.id, NextStatus(t.status)))
  {
  }
}
