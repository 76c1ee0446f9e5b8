/** The dashboard's whole state: the committed task list, the creation
    form's draft, and whether the form is shown. Every user action is a pure
    transition; submitting takes the random id and the timestamp as inputs. */
module Dashboard {
  import opened Wrappers
  import opened Tasks

  datatype PageState = PageState(tasks: seq<Task>, draft: Draft, showForm: bool)

  /** The two seeded example tasks the page starts with. */
  const MockTasks: seq<Task> := [
    Task("1", "Complete project documentation",
         Some("Write comprehensive documentation for the new feature"),
         Some("2025-03-01T00:00:00Z"), 2, Pending, Some("Documentation"), "2025-02-20T00:00:00Z"),
    Task("2", "Review pull requests",
         Some("Review and merge pending pull requests"),
         Some("2025-02-25T00:00:00Z"), 3, InProgress, Some("Code Review"), "2025-02-19T00:00:00Z")
  ]

  function Initial(): (st: PageState)
    ensures WellFormed(st.tasks) && |st.tasks| == 2
    ensures st.draft == DefaultDraft && !st.showForm
  {
    PageState(MockTasks, DefaultDraft, false)
  }

  /** The options of the priority select. */
  datatype PriorityChoice = ChooseLow | ChooseMedium | ChooseHigh

  function ChoiceValue(c: PriorityChoice): (p: int)
    ensures ValidPriority(p)
    ensures p == 1 <==> c == ChooseLow
    ensures p == 2 <==> c == ChooseMedium
    ensures p == 3 <==> c == ChooseHigh
  {
    match c
    case ChooseLow => 1
    case ChooseMedium => 2
    case ChooseHigh => 3
  }

  /** The "New Task" button flips the form's visibility. */
  function ToggleForm(st: PageState): (r: PageState)
    ensures r.showForm != st.showForm
    ensures r.tasks == st.tasks && r.draft == st.draft
  {
    st.(showForm := !st.showForm)
  }

  /** "Cancel" hides the form but keeps whatever was typed into it. */
  function CancelForm(st: PageState): (r: PageState)
    ensures !r.showForm
    ensures r.tasks == st.tasks && r.draft == st.draft
  {
    st.(showForm := false)
  }

  /** Submitting the form: the task built from the draft goes first, the
      draft is reset and the form closes. */
  function Submit(st: PageState, id: string, now: string): (r: PageState)
    ensures r.tasks == CreateTask(st.tasks, st.draft, id, now)
    ensures r.tasks[0].status == Pending && r.tasks[0].title == st.draft.title
    ensures r.draft == DefaultDraft && !r.showForm
  {
    PageState(CreateTask(st.tasks, st.draft, id, now), DefaultDraft, false)
  }

  /** User actions on the page; a quick-toggle names the row clicked. */
  datatype Event =
    | NewTaskButton
    | Cancel
    | EditTitle(title: string)
    | EditDescription(description: string)
    | EditDueDate(dueDate: string)
    | EditPriority(choice: PriorityChoice)
    | EditCategory(category: string)
    | SubmitForm(id: string, now: string)
    | QuickToggle(row: nat)

  /** What the page lets happen: the form's fields and its Cancel button
      exist only while the form is shown, a submission also needs the
      required title to be non-empty, and a toggle clicks an existing row.
      The generated id is not checked against the list. */
  predicate Enabled(st: PageState, e: Event) {
    match e
    case NewTaskButton => true
    case SubmitForm(_, _) => st.showForm && st.draft.title != ""
    case QuickToggle(row) => row < |st.tasks|
    case _ => st.showForm
  }

  function Step(st: PageState, e: Event): (r: PageState)
    requires Enabled(st, e)
    ensures e.QuickToggle? ==> r == st.(tasks := ToggleRow(st.tasks, e.row))
    ensures e.SubmitForm? ==> r == Submit(st, e.id, e.now)
    ensures e.NewTaskButton? ==> r == st.(showForm := !st.showForm)
    ensures e.Cancel? ==> r == st.(showForm := false)
    ensures e.EditTitle? ==> r == st.(draft := st.draft.(title := e.title))
    ensures e.EditDescription? ==> r == st.(draft := st.draft.(description := e.description))
    ensures e.EditDueDate? ==> r == st.(draft := st.draft.(dueDate := e.dueDate))
    ensures e.EditPriority? ==> r == st.(draft := st.draft.(priority := ChoiceValue(e.choice)))
    ensures e.EditCategory? ==> r == st.(draft := st.draft.(category := e.category))
    ensures !e.SubmitForm? && !e.QuickToggle? ==> r.tasks == st.tasks
  {
    match e
    case NewTaskButton => ToggleForm(st)
    case Cancel => CancelForm(st)
    case EditTitle(v) => st.(draft := st.draft.(title := v))
    case EditDescription(v) => st.(draft := st.draft.(description := v))
    case EditDueDate(v) => st.(draft := st.draft.(dueDate := v))
    case EditPriority(c) => st.(draft := st.draft.(priority := ChoiceValue(c)))
    case EditCategory(v) => st.(draft := st.draft.(category := v))
    case SubmitForm(id, now) => Submit(st, id, now)
    case QuickToggle(row) => st.(tasks := ToggleRow(st.tasks, row))
  }

  /** The random id of a submission happens not to collide with a task
      already in the list; the code does not check this. */
  predicate FreshId(st: PageState, e: Event) {
    e.SubmitForm? ==> !HasId(st.tasks, e.id)
  }

  /** The task list is well-formed and the draft holds a selectable priority. */
  predicate Invariant(st: PageState) {
    WellFormed(st.tasks) && ValidPriority(st.draft.priority)
  }

  /** Each action keeps the invariant, provided a submission's id is fresh. */
  lemma StepPreservesInvariant(st: PageState, e: Event)
    requires Invariant(st) && Enabled(st, e) && FreshId(st, e)
    ensures Invariant(Step(st, e))
  {
  }

  /** Every event of the sequence is enabled in the state it meets. */
  predicate EnabledRun(st: PageState, events: seq<Event>)
    decreases |events|
  {
    |events| == 0 || (Enabled(st, events[0]) && EnabledRun(Step(st, events[0]), events[1..]))
  }

  /** Every submission of an enabled sequence draws a fresh id. */
  predicate FreshIds(st: PageState, events: seq<Event>)
    requires EnabledRun(st, events)
    decreases |events|
  {
    |events| == 0 || (FreshId(st, events[0]) && FreshIds(Step(st, events[0]), events[1..]))
  }

  function CountSubmits(events: seq<Event>): nat
    decreases |events|
  {
    if |events| == 0 then 0
    else (if events[0].SubmitForm? then 1 else 0) + CountSubmits(events[1..])
  }

  /** The state after the events, oldest first. The list grows by exactly one
      task per submission and never shrinks, whatever ids are drawn. */
  function Run(st: PageState, events: seq<Event>): (r: PageState)
    requires EnabledRun(st, events)
    ensures |r.tasks| == |st.tasks| + CountSubmits(events)
    decreases |events|
  {
    if |events| == 0 then st else Run(Step(st, events[0]), events[1..])
  }

  /** A session whose submissions all draw fresh ids keeps the invariant. */
  lemma {:induction false} RunPreservesInvariant(st: PageState, events: seq<Event>)
    requires Invariant(st) && EnabledRun(st, events) && FreshIds(st, events)
    ensures Invariant(Run(st, events))
    decreases |events|
  {
    if |events| > 0 {
      StepPreservesInvariant(st, events[0]);
      RunPreservesInvariant(Step(st, events[0]), events[1..]);
    }
  }

  /** A colliding id is accepted: submitting id "1" on the seeded page puts a
      second task with that id in front of the first. */
  lemma DuplicateIdScenario(now: string)
    ensures var st := Initial().(draft := DefaultDraft.(title := "x"), showForm := true);
      var r := Step(st, SubmitForm("1", now));
      && |r.tasks| == 3 && r.tasks[0].id == "1" && r.tasks[1].id == "1"
      && !UniqueIds(r.tasks)
  {
  }

  /** Cancelling and reopening the form brings back the unsubmitted draft. */
  lemma CancelKeepsDraft(st: PageState)
    requires st.showForm
    ensures ToggleForm(CancelForm(st)) == st
  {
  }

  /** Submitting a "Review" task with priority High, category "Code Review"
      and no due date or description. */
  lemma ReviewScenario(id: string, now: string)
    ensures var d := DefaultDraft.(title := "Review", priority := ChoiceValue(ChooseHigh), category := "Code Review");
      var t := Submit(Initial().(draft := d, showForm := true), id, now).tasks[0];
      && t.priority == 3 && t.status == Pending
      && t.description == None && t.dueDate == None && t.category == Some("Code Review")
  {
  }

  /** Toggling the seeded in-progress task completes it, and toggling again
      makes it pending. */
  lemma SeededToggleScenario()
    ensures ToggleRow(MockTasks, 1)[1].status == Completed
    ensures ToggleRow(ToggleRow(MockTasks, 1), 1)[1].status == Pending
  {
  }
}
