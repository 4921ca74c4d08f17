/**
 * The activity timeline of one lead on its detail page: the creation, the
 * recorded assignment, two events per completed task and one per open
 * task, and the activity log, sorted newest first.
 */
module LeadTimeline {
  import opened Leads
  import opened Seqs
  import opened Sorting

  /** A timeline entry; `kind` is the `type` property, `performedBy` is `""` where the entry has none. */
  datatype LeadEvent = LeadEvent(id: string, kind: string, description: string, date: int, performedBy: string)

  function CreationEvent(l: Lead): LeadEvent {
    LeadEvent("lead-creation", "creation", "Lead created", l.createdAt, "")
  }

  function AssignmentEvent(l: Lead): LeadEvent
    requires HasAssignment(l)
  {
    LeadEvent("lead-assignment", "assignment", "Lead assigned to " + l.assignedTo, l.assignedDate.value, "")
  }

  /** The events built from the lead's own fields before its tasks. */
  function HeadEvents(l: Lead): seq<LeadEvent> {
    [CreationEvent(l)] + if HasAssignment(l) then [AssignmentEvent(l)] else []
  }

  function TaskCreationId(taskId: string): string {
    "task-creation-" + taskId
  }

  function TaskCompletionId(taskId: string): string {
    "task-completion-" + taskId
  }

  /**
   * A task's events: its creation, and its completion when completed. No
   * completion date is stored, so the completion is dated at `now`.
   */
  function TaskEvents(t: Task, now: int): seq<LeadEvent> {
    [LeadEvent(TaskCreationId(t.id), "task_created", "Task created: " + t.title, t.createdAt, "")]
    + if t.completed then [LeadEvent(TaskCompletionId(t.id), "task_completed", "Task completed: " + t.title, now, "")] else []
  }

  function TasksEvents(ts: seq<Task>, now: int): seq<LeadEvent>
    decreases |ts|
  {
    if ts == [] then [] else TasksEvents(ts[..|ts| - 1], now) + TaskEvents(ts[|ts| - 1], now)
  }

  /** An activity record pushed as it is. */
  function ActivityEntry(a: Activity): LeadEvent {
    LeadEvent(a.id, a.kind, a.description, a.date, a.performedBy)
  }

  function ActivityEntries(acts: seq<Activity>): (r: seq<LeadEvent>)
    ensures |r| == |acts|
    ensures forall i :: 0 <= i < |acts| ==> r[i] == ActivityEntry(acts[i])
    decreases |acts|
  {
    if acts == [] then [] else ActivityEntries(acts[..|acts| - 1]) + [ActivityEntry(acts[|acts| - 1])]
  }

  /** The events built from the lead's fields and tasks. */
  function FieldEvents(l: Lead, now: int): seq<LeadEvent> {
    HeadEvents(l) + TasksEvents(TasksOf(l), now)
  }

  /** The list in push order, before the sort. */
  function Unsorted(l: Lead, now: int): seq<LeadEvent> {
    FieldEvents(l, now) + ActivityEntries(ActivitiesOf(l))
  }

  /** The comparator `new Date(b.date) - new Date(a.date)`: newest first. */
  function Latest(e: LeadEvent): Key {
    Key(-e.date, 0)
  }

  /** The `forEach` over the tasks. */
  method PushTasks(events: seq<LeadEvent>, ts: seq<Task>, now: int) returns (pushed: seq<LeadEvent>)
    ensures pushed == events + TasksEvents(ts, now)
  {
    pushed := events;
    var i := 0;
    while i < |ts|
      invariant 0 <= i <= |ts|
      invariant pushed == events + TasksEvents(ts[..i], now)
    {
      var task := ts[i];
      assert ts[..i + 1][..i] == ts[..i];
      pushed := pushed + [LeadEvent(TaskCreationId(task.id), "task_created", "Task created: " + task.title, task.createdAt, "")];
      if task.completed {
        pushed := pushed + [LeadEvent(TaskCompletionId(task.id), "task_completed", "Task completed: " + task.title, now, "")];
      }
      i := i + 1;
    }
    assert ts[..i] == ts;
  }

  /** `createTimelineEvents`, with the clock passed in as `now`. */
  method CreateTimelineEvents(lead: Lead, now: int) returns (events: seq<LeadEvent>)
    ensures events == SortBy(Unsorted(lead, now), Latest)
  {
    events := [CreationEvent(lead)];
    if lead.assignedTo != "" && lead.assignedDate.Some? {
      events := events + [AssignmentEvent(lead)];
    }
    assert events == HeadEvents(lead);
    if lead.tasks.Some? {
      events := PushTasks(events, lead.tasks.value, now);
    } else {
      assert TasksEvents(TasksOf(lead), now) == [];
    }
    assert events == FieldEvents(lead, now);
    events := events + ActivityEntries(ActivitiesOf(lead));
    assert events == Unsorted(lead, now);
    events := SortBy(events, Latest);
  }

  predicate IsCompleted(t: Task) {
    t.completed
  }

  lemma {:induction false} TasksEventsLength(ts: seq<Task>, now: int)
    ensures |TasksEvents(ts, now)| == |ts| + Count(ts, IsCompleted)
    decreases |ts|
  {
    if ts != [] {
      TasksEventsLength(ts[..|ts| - 1], now);
      FilterSnoc(ts, IsCompleted);
    }
  }

  /** The number of entries: one, one more when assigned, one per task, one per completed task, one per activity. */
  lemma TimelineLength(l: Lead, now: int)
    ensures |SortBy(Unsorted(l, now), Latest)| ==
      1 + (if HasAssignment(l) then 1 else 0) + |TasksOf(l)| + Count(TasksOf(l), IsCompleted) + |ActivitiesOf(l)|
  {
    TasksEventsLength(TasksOf(l), now);
  }

  /** The test `e => e.type === kind`. */
  function IsKind(kind: string): LeadEvent -> bool {
    (e: LeadEvent) => e.kind == kind
  }

  /** The test `a => a.type === kind` on activity records. */
  function ActivityIsKind(kind: string): Activity -> bool {
    (a: Activity) => a.kind == kind
  }

  lemma {:induction false} TaskEventsOfKind(t: Task, now: int, kind: string)
    ensures Count(TaskEvents(t, now), IsKind(kind)) ==
      (if kind == "task_created" then 1 else 0) + (if kind == "task_completed" && t.completed then 1 else 0)
  {
    var es := TaskEvents(t, now);
    FilterSnoc(es, IsKind(kind));
    if t.completed {
      var first := es[..1];
      assert first == [es[0]];
      FilterSnoc(first, IsKind(kind));
      assert first[..0] == [];
    }
  }

  /** One `task_created` per task, one `task_completed` per completed task, nothing else. */
  lemma {:induction false} TasksEventsOfKind(ts: seq<Task>, now: int, kind: string)
    ensures Count(TasksEvents(ts, now), IsKind(kind)) ==
      (if kind == "task_created" then |ts| else 0) + (if kind == "task_completed" then Count(ts, IsCompleted) else 0)
    decreases |ts|
  {
    if ts != [] {
      var init, last := ts[..|ts| - 1], ts[|ts| - 1];
      TasksEventsOfKind(init, now, kind);
      TaskEventsOfKind(last, now, kind);
      FilterConcat(TasksEvents(init, now), TaskEvents(last, now), IsKind(kind));
      FilterSnoc(ts, IsCompleted);
    }
  }

  lemma {:induction false} ActivityEntriesOfKind(acts: seq<Activity>, kind: string)
    ensures Count(ActivityEntries(acts), IsKind(kind)) == Count(acts, ActivityIsKind(kind))
    decreases |acts|
  {
    if acts != [] {
      ActivityEntriesOfKind(acts[..|acts| - 1], kind);
      FilterSnoc(acts, ActivityIsKind(kind));
      var es := ActivityEntries(acts);
      assert es[..|es| - 1] == ActivityEntries(acts[..|acts| - 1]);
      FilterSnoc(es, IsKind(kind));
    }
  }

  /** The events of one kind built from the lead's own fields. */
  function FieldKindCount(l: Lead, kind: string): nat {
    (if kind == "creation" then 1 else 0)
    + (if kind == "assignment" && HasAssignment(l) then 1 else 0)
    + (if kind == "task_created" then |TasksOf(l)| else 0)
    + (if kind == "task_completed" then Count(TasksOf(l), IsCompleted) else 0)
  }

  lemma HeadEventsOfKind(l: Lead, kind: string)
    ensures Count(HeadEvents(l), IsKind(kind)) ==
      (if kind == "creation" then 1 else 0) + (if kind == "assignment" && HasAssignment(l) then 1 else 0)
  {
    var head := HeadEvents(l);
    FilterSnoc(head, IsKind(kind));
    if HasAssignment(l) {
      assert head[..1] == [CreationEvent(l)];
      FilterSnoc([CreationEvent(l)], IsKind(kind));
    }
  }

  lemma FieldEventsOfKind(l: Lead, now: int, kind: string)
    ensures Count(FieldEvents(l, now), IsKind(kind)) == FieldKindCount(l, kind)
  {
    FilterConcat(HeadEvents(l), TasksEvents(TasksOf(l), now), IsKind(kind));
    HeadEventsOfKind(l, kind);
    TasksEventsOfKind(TasksOf(l), now, kind);
  }

  /**
   * How many entries of each kind the sorted list holds: one creation,
   * one assignment exactly when both assignment fields are set, one
   * `task_created` per task and one `task_completed` per completed task,
   * plus the logged activities of that kind.
   */
  lemma TimelineKinds(l: Lead, now: int, kind: string)
    ensures Count(SortBy(Unsorted(l, now), Latest), IsKind(kind)) ==
      FieldKindCount(l, kind) + Count(ActivitiesOf(l), ActivityIsKind(kind))
  {
    CountPermutation(SortBy(Unsorted(l, now), Latest), Unsorted(l, now), IsKind(kind));
    FilterConcat(FieldEvents(l, now), ActivityEntries(ActivitiesOf(l)), IsKind(kind));
    FieldEventsOfKind(l, now, kind);
    ActivityEntriesOfKind(ActivitiesOf(l), kind);
  }

  /** The creation entry is dated at the lead's creation and is in the list; so is the assignment entry when recorded. */
  lemma TimelineHasFieldEvents(l: Lead, now: int)
    ensures CreationEvent(l) in SortBy(Unsorted(l, now), Latest)
    ensures CreationEvent(l).date == l.createdAt
    ensures HasAssignment(l) ==> AssignmentEvent(l) in SortBy(Unsorted(l, now), Latest)
  {
    var u := Unsorted(l, now);
    SortByMembers(u, Latest, CreationEvent(l));
    assert u[0] == CreationEvent(l);
    if HasAssignment(l) {
      SortByMembers(u, Latest, AssignmentEvent(l));
      assert u[1] == AssignmentEvent(l);
    }
  }

  predicate DistinctIds(es: seq<LeadEvent>) {
    forall i, j :: 0 <= i < j < |es| ==> es[i].id != es[j].id
  }

  predicate DistinctTaskIds(ts: seq<Task>) {
    forall i, j :: 0 <= i < j < |ts| ==> ts[i].id != ts[j].id
  }

  /** The id is one of the two a task's events carry. */
  predicate IsTaskEventId(id: string, taskId: string) {
    id == TaskCreationId(taskId) || id == TaskCompletionId(taskId)
  }

  /** A task event id names exactly one task, and is never one of the two fixed ids. */
  lemma TaskEventIdFacts(a: string, b: string)
    ensures TaskCreationId(a) == TaskCreationId(b) ==> a == b
    ensures TaskCompletionId(a) == TaskCompletionId(b) ==> a == b
    ensures TaskCreationId(a) != TaskCompletionId(b)
    ensures TaskCreationId(a) != "lead-creation" && TaskCreationId(a) != "lead-assignment"
    ensures TaskCompletionId(a) != "lead-creation" && TaskCompletionId(a) != "lead-assignment"
  {
    var cr, co := "task-creation-", "task-completion-";
    if TaskCreationId(a) == TaskCreationId(b) {
      assert a == TaskCreationId(a)[|cr|..] && b == TaskCreationId(b)[|cr|..];
    }
    if TaskCompletionId(a) == TaskCompletionId(b) {
      assert a == TaskCompletionId(a)[|co|..] && b == TaskCompletionId(b)[|co|..];
    }
    assert TaskCreationId(a)[6] == 'r' && TaskCompletionId(b)[6] == 'o';
    assert TaskCreationId(a)[0] == 't' && TaskCompletionId(a)[0] == 't';
  }

  lemma {:induction false} TasksEventsIds(ts: seq<Task>, now: int)
    ensures forall e :: e in TasksEvents(ts, now) ==> exists i :: 0 <= i < |ts| && IsTaskEventId(e.id, ts[i].id)
    decreases |ts|
  {
    if ts != [] {
      var init, last := ts[..|ts| - 1], ts[|ts| - 1];
      TasksEventsIds(init, now);
      forall e | e in TasksEvents(ts, now) ensures exists i :: 0 <= i < |ts| && IsTaskEventId(e.id, ts[i].id) {
        if e in TasksEvents(init, now) {
          var i :| 0 <= i < |init| && IsTaskEventId(e.id, init[i].id);
          assert ts[i] == init[i];
        } else {
          assert IsTaskEventId(e.id, ts[|ts| - 1].id);
        }
      }
    }
  }

  lemma DistinctConcat(a: seq<LeadEvent>, b: seq<LeadEvent>)
    requires DistinctIds(a) && DistinctIds(b)
    requires forall x, y :: x in a && y in b ==> x.id != y.id
    ensures DistinctIds(a + b)
  {
    var c := a + b;
    forall i, j | 0 <= i < j < |c| ensures c[i].id != c[j].id {
      if j < |a| {
        assert c[i] == a[i] && c[j] == a[j];
      } else if i < |a| {
        assert c[i] in a && c[j] in b;
      } else {
        assert c[i] == b[i - |a|] && c[j] == b[j - |a|];
      }
    }
  }

  /** With distinct task ids, the task events' ids are distinct. */
  lemma {:induction false} TasksEventsDistinct(ts: seq<Task>, now: int)
    requires DistinctTaskIds(ts)
    ensures DistinctIds(TasksEvents(ts, now))
    decreases |ts|
  {
    if ts != [] {
      var init, last := ts[..|ts| - 1], ts[|ts| - 1];
      TasksEventsDistinct(init, now);
      TasksEventsIds(init, now);
      TaskEventIdFacts(last.id, last.id);
      forall x, y | x in TasksEvents(init, now) && y in TaskEvents(last, now) ensures x.id != y.id {
        var i :| 0 <= i < |init| && IsTaskEventId(x.id, init[i].id);
        assert init[i] == ts[i] && ts[i].id != last.id;
        TaskEventIdFacts(init[i].id, last.id);
        TaskEventIdFacts(last.id, init[i].id);
      }
      DistinctConcat(TasksEvents(init, now), TaskEvents(last, now));
    }
  }

  /** With distinct task ids, every entry built from the lead's fields and tasks has its own id. */
  lemma FieldEventsDistinct(l: Lead, now: int)
    requires DistinctTaskIds(TasksOf(l))
    ensures DistinctIds(FieldEvents(l, now))
  {
    TasksEventsDistinct(TasksOf(l), now);
    TasksEventsIds(TasksOf(l), now);
    forall x, y | x in HeadEvents(l) && y in TasksEvents(TasksOf(l), now) ensures x.id != y.id {
      var i :| 0 <= i < |TasksOf(l)| && IsTaskEventId(y.id, TasksOf(l)[i].id);
      TaskEventIdFacts(TasksOf(l)[i].id, TasksOf(l)[i].id);
    }
    DistinctConcat(HeadEvents(l), TasksEvents(TasksOf(l), now));
  }

  /** The returned list holds the pushed entries with non-increasing dates. */
  lemma TimelineSorted(l: Lead, now: int)
    ensures multiset(SortBy(Unsorted(l, now), Latest)) == multiset(Unsorted(l, now))
    ensures var r := SortBy(Unsorted(l, now), Latest);
      forall i, j :: 0 <= i < j < |r| ==> r[i].date >= r[j].date
  {
    var r := SortBy(Unsorted(l, now), Latest);
    SortBySorted(Unsorted(l, now), Latest);
    forall i, j | 0 <= i < j < |r| ensures r[i].date >= r[j].date {
      assert KeyLe(Latest(r[i]), Latest(r[j]));
    }
  }
}
