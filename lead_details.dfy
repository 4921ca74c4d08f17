/**
 * The lead detail page: it loads one record by its route id, shows the
 * position of its stage in the six-stage sales funnel, and offers the
 * handlers that change the record (stage, assignee, tasks) and write the
 * whole array back to storage.
 *
 * Ids (`crypto.randomUUID()`) and the clock (`new Date()`) are parameters
 * of the handlers.
 */
module LeadDetails {
  import opened Common
  import opened Leads

  /** The sales funnel, in order. */
  const Stages: seq<string> := ["new", "contacted", "qualified", "proposal", "negotiation", "closed"]

  /** `s.indexOf(x)`: the first position of `x`, or -1. */
  function IndexOf(s: seq<string>, x: string): (r: int)
    ensures -1 <= r < |s|
    ensures r >= 0 ==> s[r] == x && forall j :: 0 <= j < r ==> s[j] != x
    ensures r == -1 <==> x !in s
  {
    if s == [] then -1
    else if s[0] == x then 0
    else var k := IndexOf(s[1..], x); if k == -1 then -1 else k + 1
  }

  /** `getStageProgress`: the share of the funnel reached by the lead's stage, in percent. */
  function StageProgress(stage: string): (r: nat)
    ensures r <= 100
    ensures stage !in Stages ==> r == 0
  {
    if stage == "" then 0 else RoundPercent(IndexOf(Stages, stage) + 1, |Stages|)
  }

  /** The stage at position i of the funnel shows i + 1 sixths of it, rounded. */
  lemma StageProgressAt(i: nat)
    requires i < |Stages|
    ensures StageProgress(Stages[i]) == RoundPercent(i + 1, |Stages|)
  {
    var k := IndexOf(Stages, Stages[i]);
    assert k == i;
  }

  /** The six stages show 17, 33, 50, 67, 83 and 100 percent: the first is above zero and the last is full. */
  lemma StageProgressValues(i: nat)
    requires i < |Stages|
    ensures StageProgress(Stages[i]) == [17, 33, 50, 67, 83, 100][i]
  {
    StageProgressAt(i);
    SixthsRounded(i);
  }

  /** round(100 * (i + 1) / 6) for the six positions. */
  lemma SixthsRounded(i: nat)
    requires i < 6
    ensures RoundPercent(i + 1, 6) == [17, 33, 50, 67, 83, 100][i]
  {
    var n := 200 * (i + 1) + 6;
    if i == 0 {
      QuotientIs(n, 12, 17);
    } else if i == 1 {
      QuotientIs(n, 12, 33);
    } else if i == 2 {
      QuotientIs(n, 12, 50);
    } else if i == 3 {
      QuotientIs(n, 12, 67);
    } else if i == 4 {
      QuotientIs(n, 12, 83);
    } else {
      QuotientIs(n, 12, 100);
    }
  }

  /** Progress grows strictly along the funnel. */
  lemma StageProgressIncreasing(i: nat, j: nat)
    requires i < j < |Stages|
    ensures StageProgress(Stages[i]) < StageProgress(Stages[j])
  {
    StageProgressAt(i);
    StageProgressAt(j);
    SixthsIncreasing(i + 1, j + 1);
  }

  /** A sixth of the funnel is more than one percent, so rounding keeps the order strict. */
  lemma SixthsIncreasing(a: nat, b: nat)
    requires a < b <= 6
    ensures RoundPercent(a, 6) < RoundPercent(b, 6)
  {
    RoundPercentNearest(a, 6);
    RoundPercentNearest(b, 6);
  }

  /** The defaults `fetchLead` fills in: empty task and activity arrays, stage `'new'`. */
  function WithDefaults(l: Lead): (r: Lead)
    ensures r.tasks == Some(TasksOf(l)) && r.activities == Some(ActivitiesOf(l))
    ensures r.stage == if l.stage == "" then "new" else l.stage
    ensures r.(tasks := l.tasks, activities := l.activities, stage := l.stage) == l
  {
    l.(tasks := Some(TasksOf(l)), activities := Some(ActivitiesOf(l)),
       stage := if l.stage == "" then "new" else l.stage)
  }

  /** `leads.map(l => l.id === updated.id ? updated : l)` */
  function ReplaceById(ls: seq<Lead>, updated: Lead): (r: seq<Lead>)
  {
    if ls == [] then []
    else [if ls[0].id == updated.id then updated else ls[0]] + ReplaceById(ls[1..], updated)
  }

  /**
   * Replacing keeps the array's length, puts the new record at every
   * position whose id matches and leaves every other record as it was.
   */
  lemma {:induction false} ReplaceByIdAt(ls: seq<Lead>, updated: Lead)
    ensures |ReplaceById(ls, updated)| == |ls|
    ensures forall i :: 0 <= i < |ls| ==>
      ReplaceById(ls, updated)[i] == if ls[i].id == updated.id then updated else ls[i]
  {
    if ls != [] {
      ReplaceByIdAt(ls[1..], updated);
    }
  }

  /** Writing a record back twice is the same as writing it once. */
  lemma ReplaceByIdIdempotent(ls: seq<Lead>, updated: Lead)
    ensures ReplaceById(ReplaceById(ls, updated), updated) == ReplaceById(ls, updated)
  {
    var once := ReplaceById(ls, updated);
    ReplaceByIdAt(ls, updated);
    ReplaceByIdAt(once, updated);
  }

  /** A record whose id is not stored changes nothing. */
  lemma ReplaceByIdAbsent(ls: seq<Lead>, updated: Lead)
    requires forall i :: 0 <= i < |ls| ==> ls[i].id != updated.id
    ensures ReplaceById(ls, updated) == ls
  {
    ReplaceByIdAt(ls, updated);
  }

  /** The activity that `handleStageUpdate` logs. */
  function StageActivity(l: Lead, newStage: string, activityId: string, now: int): Activity {
    Activity(activityId, l.id, "stage_change", "Lead moved from " + l.stage + " to " + newStage, now, "")
  }

  /** The record `handleStageUpdate` builds with object spread. */
  function WithStage(l: Lead, newStage: string, activityId: string, now: int): (r: Lead)
    ensures r.stage == newStage
    ensures |ActivitiesOf(r)| == |ActivitiesOf(l)| + 1
    ensures ActivitiesOf(r)[..|ActivitiesOf(l)|] == ActivitiesOf(l)
    ensures var a := ActivitiesOf(r)[|ActivitiesOf(l)|];
      a.kind == "stage_change" && a.leadId == l.id && a.id == activityId && a.date == now
    ensures r.(stage := l.stage, activities := l.activities) == l
  {
    var acts := ActivitiesOf(l) + [StageActivity(l, newStage, activityId, now)];
    assert acts[..|ActivitiesOf(l)|] == ActivitiesOf(l);
    l.(stage := newStage, activities := Some(acts))
  }

  /** The activity that `handleAssign` logs. */
  function AssignActivity(l: Lead, assignee: string, activityId: string, now: int): Activity {
    Activity(activityId, l.id, "assignment", "Lead assigned to " + assignee, now, "")
  }

  /** The record `handleAssign` builds. */
  function WithAssignee(l: Lead, assignee: string, activityId: string, now: int): (r: Lead)
    ensures r.assignedTo == assignee && r.assignedDate == Some(now)
    ensures |ActivitiesOf(r)| == |ActivitiesOf(l)| + 1
    ensures ActivitiesOf(r)[..|ActivitiesOf(l)|] == ActivitiesOf(l)
    ensures var a := ActivitiesOf(r)[|ActivitiesOf(l)|];
      a.kind == "assignment" && a.leadId == l.id && a.id == activityId && a.date == now
    ensures r.(assignedTo := l.assignedTo, assignedDate := l.assignedDate, activities := l.activities) == l
  {
    var acts := ActivitiesOf(l) + [AssignActivity(l, assignee, activityId, now)];
    assert acts[..|ActivitiesOf(l)|] == ActivitiesOf(l);
    l.(assignedTo := assignee, assignedDate := Some(now), activities := Some(acts))
  }

  /** The record `handleAddTask` builds: `{ id, leadId: lead.id, ...task, createdAt }` appended to the tasks. */
  function WithTask(l: Lead, draft: TaskDraft, taskId: string, now: int): (r: Lead)
    ensures |TasksOf(r)| == |TasksOf(l)| + 1
    ensures TasksOf(r)[..|TasksOf(l)|] == TasksOf(l)
    ensures var t := TasksOf(r)[|TasksOf(l)|];
      && t.id == taskId && t.leadId == l.id && t.createdAt == now
      && t.title == draft.title && t.description == draft.description && t.dueDate == draft.dueDate
      && t.completed == draft.completed && t.assignedTo == draft.assignedTo
    ensures r.(tasks := l.tasks) == l
  {
    var t := Task(taskId, l.id, draft.title, draft.description, draft.dueDate, draft.completed, draft.assignedTo, now);
    var ts := TasksOf(l) + [t];
    assert ts[..|TasksOf(l)|] == TasksOf(l);
    l.(tasks := Some(ts))
  }

  /** `tasks.map(task => task.id === taskId ? { ...task, completed } : task)` */
  function SetCompleted(ts: seq<Task>, taskId: string, completed: bool): seq<Task> {
    if ts == [] then []
    else
      [if ts[0].id == taskId then ts[0].(completed := completed) else ts[0]]
      + SetCompleted(ts[1..], taskId, completed)
  }

  /**
   * Completing keeps the number and order of tasks; a task with the given
   * id differs only in its flag, which now has the given value; every
   * other task is unchanged.
   */
  lemma {:induction false} SetCompletedAt(ts: seq<Task>, taskId: string, completed: bool)
    ensures |SetCompleted(ts, taskId, completed)| == |ts|
    ensures forall i :: 0 <= i < |ts| ==> var t := SetCompleted(ts, taskId, completed)[i];
      if ts[i].id == taskId then t.completed == completed && t.(completed := ts[i].completed) == ts[i]
      else t == ts[i]
  {
    if ts != [] {
      SetCompletedAt(ts[1..], taskId, completed);
    }
  }

  /** Setting the same flag twice is the same as setting it once. */
  lemma SetCompletedIdempotent(ts: seq<Task>, taskId: string, completed: bool)
    ensures SetCompleted(SetCompleted(ts, taskId, completed), taskId, completed)
      == SetCompleted(ts, taskId, completed)
  {
    var once := SetCompleted(ts, taskId, completed);
    SetCompletedAt(ts, taskId, completed);
    SetCompletedAt(once, taskId, completed);
  }

  /** The page's state: the loaded record (`null` is `None`) and the loading flag. */
  class LeadDetailsPage {
    const store: LeadStore
    var lead: Option<Lead>
    var loading: bool

    constructor (store: LeadStore)
      ensures this.store == store && lead == None && loading
    {
      this.store := store;
      lead := None;
      loading := true;
    }

    /**
     * `fetchLead`: take the first stored record with the route id and fill
     * in its defaults. When the key is missing or no record has the id,
     * `lead` keeps its value. The stored array is not touched.
     */
    method FetchLead(routeId: string)
      modifies this
      ensures !loading
      ensures store.present && FindIndex(store.leads, routeId).Some? ==>
        lead == Some(WithDefaults(store.leads[FindIndex(store.leads, routeId).value]))
      ensures !(store.present && FindIndex(store.leads, routeId).Some?) ==> lead == old(lead)
    {
      loading := true;
      if store.present {
        var found := FindIndex(store.leads, routeId);
        if found.Some? {
          lead := Some(WithDefaults(store.leads[found.value]));
        }
      }
      loading := false;
    }

    /** `updateLead`: only when the key is set, write the array back with the record replaced and show it. */
    method UpdateLead(updated: Lead)
      modifies this, store
      ensures loading == old(loading)
      ensures old(store.present) ==>
        store.present && store.leads == ReplaceById(old(store.leads), updated) && lead == Some(updated)
      ensures !old(store.present) ==> unchanged(store) && lead == old(lead)
    {
      if store.present {
        store.leads := ReplaceById(store.leads, updated);
        lead := Some(updated);
      }
    }

    /** `handleStageUpdate`: moves the lead to `newStage` and logs it, even when the stage does not change. */
    method HandleStageUpdate(newStage: string, activityId: string, now: int)
      modifies this, store
      ensures loading == old(loading)
      ensures old(lead).Some? && old(store.present) ==>
        var u := WithStage(old(lead).value, newStage, activityId, now);
        lead == Some(u) && store.present && store.leads == ReplaceById(old(store.leads), u)
      ensures old(lead).None? || !old(store.present) ==> unchanged(store) && lead == old(lead)
    {
      if lead.None? {
        return;
      }
      UpdateLead(WithStage(lead.value, newStage, activityId, now));
    }

    /** `handleAssign`: sets the assignee and the assignment date and logs it. */
    method HandleAssign(assignee: string, activityId: string, now: int)
      modifies this, store
      ensures loading == old(loading)
      ensures old(lead).Some? && old(store.present) ==>
        var u := WithAssignee(old(lead).value, assignee, activityId, now);
        lead == Some(u) && store.present && store.leads == ReplaceById(old(store.leads), u)
      ensures old(lead).None? || !old(store.present) ==> unchanged(store) && lead == old(lead)
    {
      if lead.None? {
        return;
      }
      UpdateLead(WithAssignee(lead.value, assignee, activityId, now));
    }

    /** `handleAddTask`: appends one task for this lead. */
    method HandleAddTask(draft: TaskDraft, taskId: string, now: int)
      modifies this, store
      ensures loading == old(loading)
      ensures old(lead).Some? && old(store.present) ==>
        var u := WithTask(old(lead).value, draft, taskId, now);
        lead == Some(u) && store.present && store.leads == ReplaceById(old(store.leads), u)
      ensures old(lead).None? || !old(store.present) ==> unchanged(store) && lead == old(lead)
    {
      if lead.None? {
        return;
      }
      UpdateLead(WithTask(lead.value, draft, taskId, now));
    }

    /** `handleTaskComplete`: sets the flag of the tasks with `taskId`; nothing happens when `tasks` is absent. */
    method HandleTaskComplete(taskId: string, completed: bool)
      modifies this, store
      ensures loading == old(loading)
      ensures old(lead).Some? && old(lead).value.tasks.Some? && old(store.present) ==>
        var l := old(lead).value;
        var u := l.(tasks := Some(SetCompleted(l.tasks.value, taskId, completed)));
        lead == Some(u) && store.present && store.leads == ReplaceById(old(store.leads), u)
      ensures old(lead).None? || old(lead).value.tasks.None? || !old(store.present) ==>
        unchanged(store) && lead == old(lead)
    {
      if lead.None? || lead.value.tasks.None? {
        return;
      }
      var l := lead.value;
      UpdateLead(l.(tasks := Some(SetCompleted(l.tasks.value, taskId, completed))));
    }
  }
}
