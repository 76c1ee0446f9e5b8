/** The committed task list of the dashboard: the `Task` record, task
    creation from a draft (prepended, most recent first), the status update
    applied to every task with a given id, and the quick-toggle successor of a
    status. The random id and the creation timestamp are parameters. */
module Tasks {
  import opened Wrappers

  datatype Status = Pending | InProgress | Completed

  /** `description`, `dueDate` and `category` are nullable in the source. */
  datatype Task = Task(
    id: string,
    title: string,
    description: Option<string>,
    dueDate: Option<string>,
    priority: int,
    status: Status,
    category: Option<string>,
    createdAt: string)

  /** The creation form's field values, all held as entered. */
  datatype Draft = Draft(
    title: string,
    description: string,
    dueDate: string,
    priority: int,
    category: string)

  /** The form's initial and post-submit values: blank fields, Medium priority. */
  const DefaultDraft: Draft := Draft("", "", "", 2, "")

  /** The priorities the form's select offers: Low, Medium, High. */
  predicate ValidPriority(p: int) {
    1 <= p <= 3
  }

  /** `s || null` for a string: only the empty string is falsy. */
  function NullIfEmpty(s: string): (r: Option<string>)
    ensures r.None? <==> s == ""
    ensures r.GetOr("") == s
  {
    if s == "" then None else Some(s)
  }

  /** The task built on submit: the draft's title and priority, blank
      optional fields as null, status pending, stamped with `now`. */
  function NewTask(d: Draft, id: string, now: string): (t: Task)
    ensures t.id == id && t.createdAt == now
    ensures t.title == d.title && t.priority == d.priority
    ensures t.status == Pending
    ensures t.description.None? <==> d.description == ""
    ensures t.dueDate.None? <==> d.dueDate == ""
    ensures t.category.None? <==> d.category == ""
    ensures ToDraft(t) == d
  {
    Task(id, d.title, NullIfEmpty(d.description), NullIfEmpty(d.dueDate),
         d.priority, Pending, NullIfEmpty(d.category), now)
  }

  /** The draft a task's user-entered fields correspond to, null read back as
      blank; the inverse of `NewTask` on those fields. */
  function ToDraft(t: Task): Draft {
    Draft(t.title, t.description.GetOr(""), t.dueDate.GetOr(""), t.priority, t.category.GetOr(""))
  }

  /** Creating a task prepends it; the previous list follows unchanged. */
  function CreateTask(tasks: seq<Task>, d: Draft, id: string, now: string): (r: seq<Task>)
    ensures |r| == |tasks| + 1
    ensures r[0] == NewTask(d, id, now)
    ensures r[1..] == tasks
  {
    [NewTask(d, id, now)] + tasks
  }

  predicate HasId(tasks: seq<Task>, id: string) {
    exists i :: 0 <= i < |tasks| && tasks[i].id == id
  }

  predicate UniqueIds(tasks: seq<Task>) {
    forall i, j :: 0 <= i < j < |tasks| ==> tasks[i].id != tasks[j].id
  }

  /** Ids are unique, titles are non-empty and priorities lie in 1..3. */
  predicate WellFormed(tasks: seq<Task>) {
    && UniqueIds(tasks)
    && forall i :: 0 <= i < |tasks| ==> tasks[i].title != "" && ValidPriority(tasks[i].priority)
  }

  /** `tasks.map(t => t.id === id ? {...t, status} : t)`: every task carrying
      the id gets the new status, duplicates included; nothing else changes. */
  function UpdateStatus(tasks: seq<Task>, id: string, status: Status): (r: seq<Task>)
    ensures |r| == |tasks|
    ensures forall i :: 0 <= i < |tasks| && tasks[i].id != id ==> r[i] == tasks[i]
    ensures forall i :: 0 <= i < |tasks| && tasks[i].id == id ==> r[i].status == status
    ensures forall i :: 0 <= i < |tasks| ==> r[i].(status := tasks[i].status) == tasks[i]
  {
    if |tasks| == 0 then []
    else
      var head := if tasks[0].id == id then tasks[0].(status := status) else tasks[0];
      [head] + UpdateStatus(tasks[1..], id, status)
  }

  /** An id absent from the list leaves it unchanged. */
  lemma UpdateStatusMissingId(tasks: seq<Task>, id: string, status: Status)
    requires !HasId(tasks, id)
    ensures UpdateStatus(tasks, id, status) == tasks
  {
  }

  /** With unique ids, updating a present id changes exactly that one task. */
  lemma UpdateStatusSingle(tasks: seq<Task>, k: nat, status: Status)
    requires UniqueIds(tasks) && k < |tasks|
    ensures UpdateStatus(tasks, tasks[k].id, status) == tasks[k := tasks[k].(status := status)]
  {
  }

  /** The last status written for an id is the one that sticks. */
  lemma UpdateStatusLastWriteWins(tasks: seq<Task>, id: string, first: Status, second: Status)
    ensures UpdateStatus(UpdateStatus(tasks, id, first), id, second) == UpdateStatus(tasks, id, second)
  {
  }

  /** Updates of different ids do not interfere. */
  lemma UpdateStatusCommutes(tasks: seq<Task>, id1: string, s1: Status, id2: string, s2: Status)
    requires id1 != id2
    ensures UpdateStatus(UpdateStatus(tasks, id1, s1), id2, s2)
         == UpdateStatus(UpdateStatus(tasks, id2, s2), id1, s1)
  {
  }

  /** A status update keeps the list well-formed: it touches no id, title or priority. */
  lemma UpdateStatusPreservesWellFormed(tasks: seq<Task>, id: string, status: Status)
    requires WellFormed(tasks)
    ensures WellFormed(UpdateStatus(tasks, id, status))
  {
  }

  /** Creating a task with a fresh id, a non-empty title (the form's required
      field) and a priority from the select keeps the list well-formed. */
  lemma CreateTaskPreservesWellFormed(tasks: seq<Task>, d: Draft, id: string, now: string)
    requires WellFormed(tasks)
    requires !HasId(tasks, id) && d.title != "" && ValidPriority(d.priority)
    ensures WellFormed(CreateTask(tasks, d, id, now))
  {
  }

  /** Position of a status in the lifecycle pending, in progress, completed. */
  function Rank(s: Status): (n: nat)
    ensures n < 3
  {
    match s
    case Pending => 0
    case InProgress => 1
    case Completed => 2
  }

  /** The quick-toggle successor: completed to pending, pending to in progress,
      anything else to completed. */
  function NextStatus(s: Status): (r: Status)
    ensures Rank(r) == (Rank(s) + 1) % 3
    ensures r != s
  {
    if s == Completed then Pending
    else if s == Pending then InProgress
    else Completed
  }

  /** Three quick-toggles bring every status back to where it started. */
  lemma NextStatusPeriodThree(s: Status)
    ensures NextStatus(NextStatus(NextStatus(s))) == s
    ensures NextStatus(s) != s && NextStatus(NextStatus(s)) != s
  {
  }

  /** The successor is a bijection on the three statuses. */
  lemma NextStatusInjective(a: Status, b: Status)
    requires NextStatus(a) == NextStatus(b)
    ensures a == b
  {
  }

  /** Clicking the status button of row `k`: the next status is computed from
      that row's status and applied to every task sharing its id. */
  function ToggleRow(tasks: seq<Task>, k: nat): (r: seq<Task>)
    requires k < |tasks|
    ensures |r| == |tasks|
    ensures forall i :: 0 <= i < |tasks| && tasks[i].id == tasks[k].id ==>
      r[i] == tasks[i].(status := NextStatus(tasks[k].status))
    ensures forall i :: 0 <= i < |tasks| && tasks[i].id != tasks[k].id ==> r[i] == tasks[i]
    ensures UniqueIds(tasks) ==> UniqueIds(r) && r == tasks[k := r[k]]
  {
    UpdateStatus(tasks, tasks[k].id, NextStatus(tasks[k].status))
  }

  /** With unique ids, toggling one row three times restores the whole list. */
  lemma ToggleRowThriceRestores(tasks: seq<Task>, k: nat)
    requires UniqueIds(tasks) && k < |tasks|
    ensures ToggleRow(ToggleRow(ToggleRow(tasks, k), k), k) == tasks
  {
  }
}
