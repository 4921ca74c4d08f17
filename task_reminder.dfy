/**
 * The follow-up task panel of the detail page: a small form that checks
 * its fields in a fixed order before handing a new task to the page, the
 * task list ordered open tasks first and then by due date, and the overdue
 * marker.
 *
 * The due date is the date picker's value, an integer timestamp or none.
 */
module TaskReminder {
  import opened Common
  import opened Leads
  import opened Text
  import opened Sorting

  /** What a submit does: which check stopped it, or the task it handed on. */
  datatype SubmitOutcome = TitleRequired | DueDateRequired | AssigneeRequired | Added(draft: TaskDraft)

  /**
   * `handleSubmit`'s checks, in order: a blank (trimmed) title, then a
   * missing due date, then a blank (trimmed) assignee. A task passes on the
   * fields as typed, untrimmed, and not completed.
   */
  function Validate(title: string, description: string, dueDate: Option<int>, assignedTo: string): (r: SubmitOutcome)
    ensures IsBlank(title) ==> r == TitleRequired
    ensures !IsBlank(title) && dueDate.None? ==> r == DueDateRequired
    ensures !IsBlank(title) && dueDate.Some? && IsBlank(assignedTo) ==> r == AssigneeRequired
    ensures r.Added? <==> !IsBlank(title) && dueDate.Some? && !IsBlank(assignedTo)
    ensures r.Added? ==> r.draft == TaskDraft(title, description, dueDate.value, false, assignedTo)
  {
    if IsBlank(title) then TitleRequired
    else if dueDate.None? then DueDateRequired
    else if IsBlank(assignedTo) then AssigneeRequired
    else Added(TaskDraft(title, description, dueDate.value, false, assignedTo))
  }

  /** A title or assignee made only of white space is refused, and one with any other character is not. */
  lemma ValidateWhitespace(title: string, description: string, dueDate: Option<int>, assignedTo: string)
    ensures Validate(title, description, dueDate, assignedTo) == TitleRequired <==> AllWhitespace(title)
    ensures Validate(title, description, dueDate, assignedTo).Added? <==>
      !AllWhitespace(title) && dueDate.Some? && !AllWhitespace(assignedTo)
  {
    BlankIffAllWhitespace(title);
    BlankIffAllWhitespace(assignedTo);
  }

  /** The task form's state. */
  class TaskForm {
    var showTaskForm: bool
    var title: string
    var description: string
    var dueDate: Option<int>
    var assignedTo: string

    /** The form starts hidden and empty, with the lead's assignee (or nothing) as the task's assignee. */
    constructor (lead: Lead)
      ensures !showTaskForm && title == "" && description == "" && dueDate == None
      ensures assignedTo == lead.assignedTo
    {
      showTaskForm := false;
      title, description := "", "";
      dueDate := None;
      assignedTo := lead.assignedTo;
    }

    /** The add-task button shows the form; the cancel button hides it. */
    method SetShown(shown: bool)
      modifies this
      ensures showTaskForm == shown
      ensures title == old(title) && description == old(description)
      ensures dueDate == old(dueDate) && assignedTo == old(assignedTo)
    {
      showTaskForm := shown;
    }

    /**
     * `handleSubmit`. On a failed check nothing changes and no task is
     * handed on. On success the task goes to the page, title, description
     * and due date are cleared, the form is hidden and the assignee stays.
     */
    method Submit() returns (outcome: SubmitOutcome)
      modifies this
      ensures outcome == Validate(old(title), old(description), old(dueDate), old(assignedTo))
      ensures !outcome.Added? ==> unchanged(this)
      ensures outcome.Added? ==>
        title == "" && description == "" && dueDate == None && !showTaskForm && assignedTo == old(assignedTo)
    {
      if IsBlank(title) {
        return TitleRequired;
      }
      if dueDate.None? {
        return DueDateRequired;
      }
      if IsBlank(assignedTo) {
        return AssigneeRequired;
      }
      outcome := Added(TaskDraft(title, description, dueDate.value, false, assignedTo));
      title := "";
      description := "";
      dueDate := None;
      showTaskForm := false;
    }
  }

  /** The comparator's order: open tasks (0) before completed ones (1), then the earlier due date. */
  function TaskOrder(t: Task): Key {
    Key(if t.completed then 1 else 0, t.dueDate)
  }

  /** `sortedTasks`: a sorted copy of the lead's tasks, or nothing when the lead has no task array. */
  function SortedTasks(lead: Lead): seq<Task> {
    if lead.tasks.Some? then SortBy(lead.tasks.value, TaskOrder) else []
  }

  /**
   * The sorted list holds the lead's tasks, each as often as before; every
   * open task comes before every completed one, and tasks with the same
   * status are in order of due date.
   */
  lemma SortedTasksOrder(lead: Lead)
    ensures multiset(SortedTasks(lead)) == multiset(TasksOf(lead))
    ensures lead.tasks.None? ==> SortedTasks(lead) == []
    ensures forall i, j :: 0 <= i < j < |SortedTasks(lead)| ==>
      (SortedTasks(lead)[i].completed ==> SortedTasks(lead)[j].completed)
    ensures forall i, j :: 0 <= i < j < |SortedTasks(lead)| ==>
      (SortedTasks(lead)[i].completed == SortedTasks(lead)[j].completed ==>
        SortedTasks(lead)[i].dueDate <= SortedTasks(lead)[j].dueDate)
  {
    if lead.tasks.Some? {
      var r := SortedTasks(lead);
      SortBySorted(lead.tasks.value, TaskOrder);
      forall i, j | 0 <= i < j < |r| ensures r[i].completed ==> r[j].completed {
        assert KeyLe(TaskOrder(r[i]), TaskOrder(r[j]));
      }
      forall i, j | 0 <= i < j < |r| && r[i].completed == r[j].completed
        ensures r[i].dueDate <= r[j].dueDate
      {
        assert KeyLe(TaskOrder(r[i]), TaskOrder(r[j]));
      }
    }
  }

  /** The overdue marker: an open task whose due date has passed. */
  predicate IsPastDue(t: Task, now: int) {
    !t.completed && t.dueDate < now
  }

  /**
   * In the sorted list the overdue tasks are exactly the open tasks due
   * before now; they come first among the open tasks and before every
   * completed task.
   */
  lemma PastDueFirst(lead: Lead, now: int)
    ensures forall i, j :: 0 <= i < j < |SortedTasks(lead)| && IsPastDue(SortedTasks(lead)[j], now) ==>
      IsPastDue(SortedTasks(lead)[i], now)
  {
    SortedTasksOrder(lead);
  }
}
