/**
 * The stored data: one array of lead records, each carrying its follow-up
 * tasks and its activity log, kept under a single key of the browser's
 * page-local storage.
 *
 * Representation choices:
 * - dates are integer timestamps;
 * - an optional string used only through JavaScript truthiness
 *   (`assignedTo`, `stage`) is a `string`, with `""` standing for absent:
 *   both are falsy, so every test in the source treats them alike;
 * - the optional arrays `tasks` and `activities` are `Option`s, because
 *   the detail page tells an absent array from an empty one;
 * - `budgetRange` holds integers (the slider moves in steps of 50000).
 */
module Leads {
  import opened Common

  datatype Task = Task(
    id: string,
    leadId: string,
    title: string,
    description: string,
    dueDate: int,
    completed: bool,
    assignedTo: string,
    createdAt: int)

  /** What the task form hands to `onAddTask`: a task without its id, lead id and creation date. */
  datatype TaskDraft = TaskDraft(
    title: string,
    description: string,
    dueDate: int,
    completed: bool,
    assignedTo: string)

  /** An activity log entry; `kind` is the record's `type` property, and `performedBy` is `""` when absent. */
  datatype Activity = Activity(
    id: string,
    leadId: string,
    kind: string,
    description: string,
    date: int,
    performedBy: string)

  datatype Lead = Lead(
    id: string,
    firstName: string,
    lastName: string,
    contactNumber: string,
    email: string,
    preferredContactMethod: string,
    propertyType: string,
    budgetRange: seq<int>,
    locationPreference: string,
    bedrooms: string,
    bathrooms: string,
    leadSource: string,
    inquiryPurpose: string,
    timeline: string,
    preferredContactTime: string,
    createdAt: int,
    notes: string,
    amenities: seq<string>,
    assignedTo: string,
    assignedDate: Option<int>,
    stage: string,
    tasks: Option<seq<Task>>,
    activities: Option<seq<Activity>>,
    isHot: bool)

  /** `lead.assignedTo` is truthy. */
  predicate IsAssigned(l: Lead) {
    l.assignedTo != ""
  }

  predicate IsUnassigned(l: Lead) {
    l.assignedTo == ""
  }

  /** `lead.assignedTo && lead.assignedDate`: an assignment with its date on record. */
  predicate HasAssignment(l: Lead) {
    l.assignedTo != "" && l.assignedDate.Some?
  }

  /** Field selectors, for grouping and counting by a field. */
  function Stage(l: Lead): string { l.stage }
  function Source(l: Lead): string { l.leadSource }
  function Purpose(l: Lead): string { l.inquiryPurpose }
  function PropertyType(l: Lead): string { l.propertyType }

  /** `${lead.firstName} ${lead.lastName}` */
  function FullName(l: Lead): string {
    l.firstName + " " + l.lastName
  }

  /** `lead.tasks || []` */
  function TasksOf(l: Lead): seq<Task> {
    if l.tasks.Some? then l.tasks.value else []
  }

  /** `lead.activities || []` */
  function ActivitiesOf(l: Lead): seq<Activity> {
    if l.activities.Some? then l.activities.value else []
  }

  predicate UniqueIds(ls: seq<Lead>) {
    forall i, j :: 0 <= i < j < |ls| ==> ls[i].id != ls[j].id
  }

  /** `ls.findIndex(l => l.id === id)`, with `None` for -1. */
  function FindIndex(ls: seq<Lead>, id: string): (r: Option<nat>)
    ensures r.Some? ==>
      r.value < |ls| && ls[r.value].id == id && forall j :: 0 <= j < r.value ==> ls[j].id != id
    ensures r.None? <==> forall j :: 0 <= j < |ls| ==> ls[j].id != id
  {
    if ls == [] then None
    else if ls[0].id == id then Some(0)
    else match FindIndex(ls[1..], id)
      case None => None
      case Some(k) => Some(k + 1)
  }

  /**
   * The page-local storage key `'leads'`: whether it is set, and the
   * array its value parses to. Reading and writing it is synchronous and
   * the serialisation is left out, so a write stores the array as it is.
   */
  class LeadStore {
    var present: bool
    var leads: seq<Lead>

    constructor (present: bool, leads: seq<Lead>)
      ensures this.present == present && this.leads == leads
    {
      this.present := present;
      this.leads := leads;
    }
  }
}
