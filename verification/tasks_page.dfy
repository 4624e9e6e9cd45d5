/** The tasks page: its status progression table, the "move to next status"
    handler, the edit-form projection, closing the modal, and the submit branch
    between update and create. The current time enters as an ISO timestamp
    parameter. */
module TasksPage {
  import opened Wrappers
  import opened Text
  import opened TaskModel

  /** The page's `nextStatus` table. */
  function NextStatus(s: Status): (r: Status)
    ensures Rank(s) <= Rank(r)
    ensures r == s <==> s == Completed
    ensures s != Completed ==> Rank(r) == Rank(s) + 1
  {
    match s
    case Todo => InProgress
    case InProgress => InReview
    case InReview => Completed
    case Completed => Completed
  }

  /** Three advances reach `completed` from anywhere, and it is a fixed point. */
  lemma ThreeStepsComplete(s: Status)
    ensures NextStatus(NextStatus(NextStatus(s))) == Completed
    ensures NextStatus(Completed) == Completed
  {
  }

  /** The status update a "move to next status" click sends, if any. */
  datatype StatusUpdate = StatusUpdate(id: string, status: Status)

  function MoveToNextStatus(t: Task): (r: Option<StatusUpdate>)
    ensures r.None? <==> t.status == Completed
    ensures r.Some? ==> r.value.id == t.id && r.value.status == NextStatus(t.status)
    ensures r.Some? ==> Rank(r.value.status) == Rank(t.status) + 1
  {
    var next := NextStatus(t.status);
    if next == t.status then None else Some(StatusUpdate(t.id, next))
  }

  /** The task form; it has no status field. */
  datatype TaskForm = TaskForm(title: string, description: string, priority: Priority, dueDate: string)

  /** `new Date().toISOString().split('T')[0]`, from the current ISO time. */
  function Today(nowIso: string): string {
    BeforeFirst(nowIso, 'T')
  }

  function BlankForm(nowIso: string): (f: TaskForm)
    ensures f.title == "" && f.description == "" && f.priority == Medium
    ensures f.dueDate == Today(nowIso)
  {
    TaskForm("", "", Medium, Today(nowIso))
  }

  /** The form a task is edited in: its text fields and priority as they are,
      and its due date cut at the first 'T'. */
  function EditForm(t: Task): (f: TaskForm)
    ensures f.title == t.title && f.description == t.description && f.priority == t.priority
    ensures IsPrefix(f.dueDate, t.dueDate)
    ensures forall i :: 0 <= i < |f.dueDate| ==> f.dueDate[i] != 'T'
    ensures |f.dueDate| == |t.dueDate| || t.dueDate[|f.dueDate|] == 'T'
  {
    TaskForm(t.title, t.description, t.priority, BeforeFirst(t.dueDate, 'T'))
  }

  /** A date-only due date is copied unchanged. */
  lemma DateOnlyDueDateKept(t: Task)
    requires forall i :: 0 <= i < |t.dueDate| ==> t.dueDate[i] != 'T'
    ensures EditForm(t).dueDate == t.dueDate
  {
  }

  datatype PageState = PageState(isModalOpen: bool, editing: Option<Task>, form: TaskForm)

  function InitialPage(nowIso: string): PageState {
    PageState(false, None, BlankForm(nowIso))
  }

  function HandleEdit(st: PageState, t: Task): (r: PageState)
    ensures r.isModalOpen && r.editing == Some(t) && r.form == EditForm(t)
  {
    PageState(true, Some(t), EditForm(t))
  }

  function HandleCloseModal(st: PageState, nowIso: string): (r: PageState)
    ensures !r.isModalOpen && r.editing.None?
    ensures r.form == TaskForm("", "", Medium, Today(nowIso))
  {
    PageState(false, None, BlankForm(nowIso))
  }

  /** The mutation a submit issues. */
  datatype Mutation = UpdateTask(id: string, data: TaskForm) | CreateTask(data: TaskForm)

  /** Submit: update when a task is being edited, create otherwise. The modal
      closes only if the mutation resolved; a rejected one leaves the page as
      it was. */
  function HandleSubmit(st: PageState, succeeded: bool, nowIso: string): (r: (Mutation, PageState))
    ensures st.editing.Some? ==> r.0 == UpdateTask(st.editing.value.id, st.form)
    ensures st.editing.None? ==> r.0 == CreateTask(st.form)
    ensures succeeded ==> r.1 == HandleCloseModal(st, nowIso)
    ensures !succeeded ==> r.1 == st
  {
    var m := if st.editing.Some? then UpdateTask(st.editing.value.id, st.form) else CreateTask(st.form);
    (m, if succeeded then HandleCloseModal(st, nowIso) else st)
  }

  /** Editing a task and saving it unchanged sends that task's id with its
      own fields, then returns the page to a blank create form. */
  lemma EditThenSave(st: PageState, t: Task, nowIso: string)
    ensures HandleSubmit(HandleEdit(st, t), true, nowIso)
         == (UpdateTask(t.id, EditForm(t)), InitialPage(nowIso))
  {
  }
}
