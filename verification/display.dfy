/** Display attributes the dashboard derives from a task: the priority colour
    class, the priority badge label, the status icon, and the list of rows with
    its empty-list placeholder. Icons and colours are enumerations. */
module Display {
  import opened Tasks

  datatype Colour = Green | Yellow | Red | Gray {

    /** The text colour class the badge is given. */
    function ClassName(): string {
      match this
      case Green => "text-green-600"
      case Yellow => "text-yellow-600"
      case Red => "text-red-600"
      case Gray => "text-gray-600"
    }
  }

  datatype Label = Low | Medium | High

  datatype Icon = CheckCircle | Clock | Circle

  /** The priority switch: 1, 2 and 3 have their own colour, every other
      number falls through to gray. */
  function PriorityColour(priority: int): (c: Colour)
    ensures c == Green <==> priority == 1
    ensures c == Yellow <==> priority == 2
    ensures c == Red <==> priority == 3
    ensures c == Gray <==> !ValidPriority(priority)
  {
    match priority
    case 1 => Green
    case 2 => Yellow
    case 3 => Red
    case _ => Gray
  }

  /** The inline badge text: 1 is Low, 2 is Medium, anything else High. */
  function PriorityLabel(priority: int): (l: Label)
    ensures l == Low <==> priority == 1
    ensures l == Medium <==> priority == 2
    ensures l == High <==> priority != 1 && priority != 2
  {
    if priority == 1 then Low
    else if priority == 2 then Medium
    else High
  }

  /** The colour a label is shown in when both come from a valid priority. */
  function LabelColour(l: Label): Colour {
    match l
    case Low => Green
    case Medium => Yellow
    case High => Red
  }

  /** For the priorities the form can produce, label and colour agree;
      outside that range the label still says High but the colour is gray. */
  lemma LabelAndColourAgree(priority: int)
    ensures ValidPriority(priority) <==> PriorityColour(priority) == LabelColour(PriorityLabel(priority))
  {
  }

  /** The status switch: completed and in progress have their own icons, the
      default is the pending circle. */
  function StatusIcon(s: Status): (i: Icon)
    ensures i == CheckCircle <==> s == Completed
    ensures i == Clock <==> s == InProgress
    ensures i == Circle <==> s == Pending
  {
    match s
    case Completed => CheckCircle
    case InProgress => Clock
    case _ => Circle
  }

  /** Distinct statuses are shown with distinct icons. */
  lemma StatusIconInjective(a: Status, b: Status)
    requires StatusIcon(a) == StatusIcon(b)
    ensures a == b
  {
  }

  /** One entry of the rendered list. */
  datatype Row =
    | TaskRow(id: string, title: string, icon: Icon, badge: Label, colour: Colour)
    | NoTasksYet

  function RowOf(t: Task): Row {
    TaskRow(t.id, t.title, StatusIcon(t.status), PriorityLabel(t.priority), PriorityColour(t.priority))
  }

  /** The list: one row per task in order, then the placeholder if there are none. */
  function ListView(tasks: seq<Task>): (rows: seq<Row>)
    ensures rows == [NoTasksYet] <==> |tasks| == 0
    ensures |tasks| > 0 ==> |rows| == |tasks|
    ensures forall i :: 0 <= i < |tasks| ==>
      && rows[i].TaskRow?
      && rows[i].id == tasks[i].id
      && rows[i].title == tasks[i].title
      && rows[i].colour == PriorityColour(tasks[i].priority)
      && rows[i].icon == StatusIcon(tasks[i].status)
      && rows[i].badge == PriorityLabel(tasks[i].priority)
  {
    var taskRows := seq(|tasks|, i requires 0 <= i < |tasks| => RowOf(tasks[i]));
    if |tasks| == 0 then taskRows + [NoTasksYet]
    else
      assert taskRows[0].TaskRow?;
      taskRows
  }

  /** Creating a task adds its row on top of the previous rows, and the
      placeholder is gone. */
  lemma ListViewAfterCreate(tasks: seq<Task>, d: Draft, id: string, now: string)
    ensures var rows := ListView(CreateTask(tasks, d, id, now));
      && NoTasksYet !in rows
      && rows[0] == RowOf(NewTask(d, id, now))
      && (|tasks| > 0 ==> rows[1..] == ListView(tasks))
      && (|tasks| == 0 ==> rows == [RowOf(NewTask(d, id, now))])
  {
  }
}
