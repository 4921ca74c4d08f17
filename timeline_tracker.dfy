/**
 * The cross-lead timeline: one event per lead creation, one per recorded
 * assignment and one per logged activity, pushed lead by lead, sorted
 * newest first and shown through an event-kind filter.
 */
module TimelineTracker {
  import opened Leads
  import opened Seqs
  import opened Sorting
  import opened Text
  import LeadDetails

  /** An event; `kind` is the record's `type` property and `isHot` is `lead.isHot || false`. */
  datatype TimelineEvent = TimelineEvent(
    date: int,
    kind: string,
    description: string,
    leadId: string,
    leadName: string,
    isHot: bool)

  function CreationEvent(l: Lead): TimelineEvent {
    TimelineEvent(l.createdAt, "creation", "Lead created for " + FullName(l), l.id, FullName(l), l.isHot)
  }

  function AssignmentEvent(l: Lead): TimelineEvent
    requires HasAssignment(l)
  {
    TimelineEvent(l.assignedDate.value, "assignment", "Lead assigned to " + l.assignedTo, l.id, FullName(l), l.isHot)
  }

  function ActivityEvent(l: Lead, a: Activity): TimelineEvent {
    TimelineEvent(a.date, a.kind, a.description, l.id, FullName(l), l.isHot)
  }

  /** The events a lead contributes before its activities. */
  function HeadEvents(l: Lead): seq<TimelineEvent> {
    [CreationEvent(l)] + if HasAssignment(l) then [AssignmentEvent(l)] else []
  }

  /** One event per activity, in the order of the log. */
  function ActivityEvents(l: Lead, acts: seq<Activity>): (r: seq<TimelineEvent>)
    ensures |r| == |acts|
    ensures forall i :: 0 <= i < |acts| ==> r[i] == ActivityEvent(l, acts[i])
    decreases |acts|
  {
    if acts == [] then [] else ActivityEvents(l, acts[..|acts| - 1]) + [ActivityEvent(l, acts[|acts| - 1])]
  }

  /** Everything one lead contributes, in push order. */
  function LeadEvents(l: Lead): seq<TimelineEvent> {
    HeadEvents(l) + ActivityEvents(l, ActivitiesOf(l))
  }

  /** The unsorted event list for an array of leads. */
  function EventsOf(ls: seq<Lead>): seq<TimelineEvent>
    decreases |ls|
  {
    if ls == [] then [] else EventsOf(ls[..|ls| - 1]) + LeadEvents(ls[|ls| - 1])
  }

  /** The inner `forEach` that pushes one event per activity. */
  method PushActivities(events: seq<TimelineEvent>, lead: Lead, acts: seq<Activity>)
    returns (pushed: seq<TimelineEvent>)
    ensures pushed == events + ActivityEvents(lead, acts)
  {
    pushed := events;
    var j := 0;
    while j < |acts|
      invariant 0 <= j <= |acts|
      invariant pushed == events + ActivityEvents(lead, acts[..j])
    {
      assert acts[..j + 1][..j] == acts[..j];
      pushed := pushed + [ActivityEvent(lead, acts[j])];
      j := j + 1;
    }
    assert acts[..j] == acts;
  }

  lemma EventsOfSnoc(ls: seq<Lead>, i: nat)
    requires i < |ls|
    ensures EventsOf(ls[..i + 1]) == EventsOf(ls[..i]) + LeadEvents(ls[i])
  {
    assert ls[..i + 1][..i] == ls[..i];
  }

  /** The pushes for one lead: its creation, its assignment when recorded, then its activities. */
  method PushLead(events: seq<TimelineEvent>, lead: Lead) returns (pushed: seq<TimelineEvent>)
    ensures pushed == events + LeadEvents(lead)
  {
    pushed := events + [CreationEvent(lead)];
    if lead.assignedTo != "" && lead.assignedDate.Some? {
      pushed := pushed + [AssignmentEvent(lead)];
    }
    assert pushed == events + HeadEvents(lead);
    if lead.activities.Some? && |lead.activities.value| > 0 {
      pushed := PushActivities(pushed, lead, lead.activities.value);
    } else {
      assert ActivityEvents(lead, ActivitiesOf(lead)) == [];
    }
  }

  /** The `forEach` over the leads that pushes each lead's events. */
  method BuildEvents(ls: seq<Lead>) returns (events: seq<TimelineEvent>)
    ensures events == EventsOf(ls)
  {
    events := [];
    var i := 0;
    while i < |ls|
      invariant 0 <= i <= |ls|
      invariant events == EventsOf(ls[..i])
    {
      events := PushLead(events, ls[i]);
      EventsOfSnoc(ls, i);
      i := i + 1;
    }
    assert ls[..i] == ls;
  }

  /** The number of logged activities over all leads. */
  function ActivityTotal(ls: seq<Lead>): nat
    decreases |ls|
  {
    if ls == [] then 0 else ActivityTotal(ls[..|ls| - 1]) + |ActivitiesOf(ls[|ls| - 1])|
  }

  /** One event per lead, one per lead with a recorded assignment, and one per activity. */
  lemma {:induction false} EventCount(ls: seq<Lead>)
    ensures |EventsOf(ls)| == |ls| + Count(ls, HasAssignment) + ActivityTotal(ls)
    decreases |ls|
  {
    if ls != [] {
      EventCount(ls[..|ls| - 1]);
      FilterSnoc(ls, HasAssignment);
    }
  }

  /** An event names the lead it came from. */
  predicate FromLead(e: TimelineEvent, l: Lead) {
    e.leadId == l.id && e.leadName == FullName(l) && e.isHot == l.isHot
  }

  lemma LeadEventsFrom(l: Lead)
    ensures forall e :: e in LeadEvents(l) ==> FromLead(e, l)
  {
    var acts := ActivityEvents(l, ActivitiesOf(l));
    assert forall e :: e in acts ==> FromLead(e, l);
  }

  /** Every event carries the id, full name and hot flag of one of the leads. */
  lemma {:induction false} EventsCarryLead(ls: seq<Lead>)
    ensures forall e :: e in EventsOf(ls) ==> exists l :: l in ls && FromLead(e, l)
    decreases |ls|
  {
    if ls != [] {
      var init, last := ls[..|ls| - 1], ls[|ls| - 1];
      EventsCarryLead(init);
      LeadEventsFrom(last);
      forall e | e in EventsOf(ls) ensures exists l :: l in ls && FromLead(e, l) {
        if e in EventsOf(init) {
          var l :| l in init && FromLead(e, l);
          assert l in ls;
        } else {
          assert e in LeadEvents(last);
          assert last in ls;
        }
      }
    }
  }

  /** The test `event => event.type === kind`. */
  function IsKind(kind: string): TimelineEvent -> bool {
    (e: TimelineEvent) => e.kind == kind
  }

  /** The test `event => event.isHot`. */
  predicate IsHotEvent(e: TimelineEvent) {
    e.isHot
  }

  /** `filteredEvents`: everything for `all`, the hot leads' events for `hot`, else the events of that kind. */
  function FilteredEvents(events: seq<TimelineEvent>, filter: string): seq<TimelineEvent> {
    if filter == "all" then events
    else if filter == "hot" then Filter(events, IsHotEvent)
    else Filter(events, IsKind(filter))
  }

  lemma FilteredEventsFacts(events: seq<TimelineEvent>, filter: string)
    ensures IsSubsequence(FilteredEvents(events, filter), events)
    ensures filter == "all" ==> FilteredEvents(events, filter) == events
    ensures filter == "hot" ==>
      forall e :: e in FilteredEvents(events, filter) <==> e in events && e.isHot
    ensures filter != "all" && filter != "hot" ==>
      forall e :: e in FilteredEvents(events, filter) <==> e in events && e.kind == filter
  {
    if filter == "all" {
      SubsequenceReflexive(events);
    } else if filter == "hot" {
      FilterIsSubsequence(events, IsHotEvent);
      forall e ensures e in Filter(events, IsHotEvent) <==> e in events && e.isHot {
        FilterMembers(events, IsHotEvent, e);
      }
    } else {
      FilterIsSubsequence(events, IsKind(filter));
      forall e ensures e in Filter(events, IsKind(filter)) <==> e in events && e.kind == filter {
        FilterMembers(events, IsKind(filter), e);
      }
    }
  }

  /** Assignment events among an activity log's events are the log's assignment activities. */
  predicate IsAssignmentActivity(a: Activity) {
    a.kind == "assignment"
  }

  lemma {:induction false} ActivityAssignmentCount(l: Lead, acts: seq<Activity>)
    ensures Count(ActivityEvents(l, acts), IsKind("assignment")) == Count(acts, IsAssignmentActivity)
    decreases |acts|
  {
    if acts != [] {
      var init := acts[..|acts| - 1];
      ActivityAssignmentCount(l, init);
      FilterSnoc(acts, IsAssignmentActivity);
      var es := ActivityEvents(l, acts);
      assert es[..|es| - 1] == ActivityEvents(l, init);
      FilterSnoc(es, IsKind("assignment"));
    }
  }

  /**
   * Assigning through the detail page records both an assignment date
   * and an 'assignment' activity, so the lead shows two more assignment
   * events than its earlier log holds, both dated at the assignment.
   */
  lemma DetailAssignmentEvents(l: Lead, assignee: string, activityId: string, now: int)
    requires assignee != ""
    ensures var es := LeadEvents(LeadDetails.WithAssignee(l, assignee, activityId, now));
      && |FilteredEvents(es, "assignment")| == 2 + Count(ActivitiesOf(l), IsAssignmentActivity)
      && |es| >= 3 && es[1].kind == "assignment" && es[1].date == now
      && es[|es| - 1].kind == "assignment" && es[|es| - 1].date == now
  {
    var r := LeadDetails.WithAssignee(l, assignee, activityId, now);
    var acts := ActivitiesOf(r);
    var p := IsKind("assignment");
    assert HeadEvents(r) == [CreationEvent(r), AssignmentEvent(r)];
    FilterConcat(HeadEvents(r), ActivityEvents(r, acts), p);
    assert Filter(HeadEvents(r), p) == [AssignmentEvent(r)] by {
      FilterSnoc(HeadEvents(r), p);
      assert HeadEvents(r)[..1] == [CreationEvent(r)];
      FilterSnoc([CreationEvent(r)], p);
    }
    ActivityAssignmentCount(r, acts);
    FilterSnoc(acts, IsAssignmentActivity);
    assert acts[..|acts| - 1] == ActivitiesOf(l);
  }

  /** The comparator `new Date(b.date) - new Date(a.date)`: newest first. */
  function Latest(e: TimelineEvent): Key {
    Key(-e.date, 0)
  }

  /** The sorted list holds the same events with non-increasing dates. */
  lemma SortedNewestFirst(events: seq<TimelineEvent>)
    ensures multiset(SortBy(events, Latest)) == multiset(events)
    ensures var r := SortBy(events, Latest);
      forall i, j :: 0 <= i < j < |r| ==> r[i].date >= r[j].date
  {
    var r := SortBy(events, Latest);
    SortBySorted(events, Latest);
    forall i, j | 0 <= i < j < |r| ensures r[i].date >= r[j].date {
      assert KeyLe(Latest(r[i]), Latest(r[j]));
    }
  }

  /** The badge: `Today`, `Yesterday`, or `<n> days ago` for a whole-day difference `n`. */
  function DayLabel(daysAgo: int): (r: string)
    ensures r == "Today" <==> daysAgo == 0
    ensures r == "Yesterday" <==> daysAgo == 1
    ensures daysAgo != 0 && daysAgo != 1 ==> r == IntToString(daysAgo) + " days ago"
  {
    if daysAgo == 0 then "Today"
    else if daysAgo == 1 then "Yesterday"
    else IntToString(daysAgo) + " days ago"
  }

  /** Milliseconds in a day. */
  const DayMs: int := 86400000

  /** Whole days from `earlier` to `later`, truncated toward zero as `differenceInDays` does. */
  function DaysBetween(later: int, earlier: int): int {
    var d := later - earlier;
    if d >= 0 then d / DayMs else -((-d) / DayMs)
  }

  /** A day separator follows event `i` when the next event is at least one whole day older. */
  function Separators(events: seq<TimelineEvent>): (r: seq<bool>)
    ensures |r| == |events|
  {
    seq(|events|, i requires 0 <= i < |events| =>
      i < |events| - 1 && DaysBetween(events[i].date, events[i + 1].date) >= 1)
  }

  /** A separator follows an event iff the next one is at least 86400000 milliseconds older; never after the last. */
  lemma SeparatorIffDayGap(events: seq<TimelineEvent>, i: nat)
    requires i < |events|
    ensures Separators(events)[i] <==> i + 1 < |events| && events[i].date - events[i + 1].date >= DayMs
    ensures i == |events| - 1 ==> !Separators(events)[i]
  {
    if i + 1 < |events| {
      var d := events[i].date - events[i + 1].date;
      if d >= DayMs {
        assert d / DayMs >= 1;
      } else if d >= 0 {
        assert d / DayMs == 0;
      }
    }
  }

  /** The tracker's state. */
  class TimelineTrackerView {
    const store: LeadStore
    var timelineEvents: seq<TimelineEvent>
    var filter: string
    var isLoading: bool

    constructor (store: LeadStore)
      ensures this.store == store && timelineEvents == [] && filter == "all" && isLoading
    {
      this.store := store;
      timelineEvents := [];
      filter := "all";
      isLoading := true;
    }

    /**
     * `fetchTimelineData`: with no stored key, loading ends and the list
     * stays as it was; otherwise the events are built and sorted newest first.
     */
    method FetchTimelineData()
      modifies this
      ensures !isLoading && filter == old(filter)
      ensures store.present ==> timelineEvents == SortBy(EventsOf(store.leads), Latest)
      ensures !store.present ==> timelineEvents == old(timelineEvents)
    {
      isLoading := true;
      if !store.present {
        isLoading := false;
        return;
      }
      var events := BuildEvents(store.leads);
      timelineEvents := SortBy(events, Latest);
      isLoading := false;
    }

    /** A filter button. */
    method SetFilter(f: string)
      modifies this
      ensures filter == f && timelineEvents == old(timelineEvents) && isLoading == old(isLoading)
    {
      filter := f;
    }

    /** What the list renders. */
    function Shown(): (r: seq<TimelineEvent>)
      reads this
      ensures IsSubsequence(r, timelineEvents)
    {
      FilteredEventsFacts(timelineEvents, filter);
      FilteredEvents(timelineEvents, filter)
    }
  }
}
