# Lead management: a verified model of the dashboard logic

The application is a single-page lead-management tool for a real-estate
agency. It keeps one array of lead records in the browser's page-local
storage. Each lead holds contact details, property preferences, a sales
stage, an optional assignee, follow-up tasks and an activity log. The
components read that array and write it back. They split leads into
assigned and unassigned ones, hand out unassigned leads to agents in turn,
count leads by stage, source, purpose and property type, filter and search,
validate the task and capture forms, and merge everything into timelines.

This project models that logic in Dafny and proves what each component
promises:

- React state becomes `class` fields, and each handler becomes a method with
  a `modifies` clause.
- The storage key becomes a shared `LeadStore` object with a `present` flag
  and a `leads` sequence.
- Loops become `while` loops with invariants, each proved equal to a
  specification function.
- Record spreads, filters, sorts and label rules become functions.

Modules, one per source file plus shared ones:

| module | models |
|---|---|
| `Common` | `Option`, and `Math.round(100 * a / b)` as integer half-up rounding |
| `Text` | `trim`, ASCII case mapping, `includes`, `replace(/_/g, ' ')`, capitalisation, integer rendering |
| `Seqs` | `Array.prototype.filter`, subsequences, counting |
| `Sorting` | `Array.prototype.sort`, stable, with a two-integer comparator key |
| `Tallies` | the `acc[k] = (acc[k] \|\| 0) + 1` count objects, in insertion order |
| `Leads` | the stored records and the `LeadStore` |
| `LeadDetails` | src/pages/LeadDetails.tsx |
| `Assignment` | src/components/AssignmentDashboard.tsx |
| `Conversion` | src/components/ConversionDashboard.tsx |
| `Dashboard` | src/components/Dashboard.tsx |
| `TaskReminder` | src/components/TaskReminder.tsx |
| `TimelineTracker` | src/components/TimelineTracker.tsx |
| `LeadTimeline` | src/components/LeadTimeline.tsx |
| `LeadForm` | src/components/LeadForm.tsx |
| `AssignForm` | src/components/AssignLeadForm.tsx |
| `LeadCard` | src/components/LeadCard.tsx |

Representation choices:

- Dates are integer timestamps in milliseconds. Ids and the current time are
  parameters, and ids are assumed fresh.
- An optional string that the code only tests for truthiness or never sets
  (`assignedTo`, `stage`, an activity's `performedBy`) is a `string`, with
  `""` meaning absent. `assignedDate`, `tasks`
  and `activities` are `Option`s, because the code tells them apart.
- The `isHot || false` default is the record's `isHot: bool`.

## Model

| member | source | states |
|---|---|---|
| `LeadDetails.IndexOf` | src/pages/LeadDetails.tsx:114 | `indexOf`: the first position holding the value, or -1 exactly when the value is absent |
| `LeadDetails.StageProgress` | src/pages/LeadDetails.tsx:111-116 | progress is 0 for a missing or unknown stage and always at most 100 |
| `LeadDetails.StageProgressAt` | src/pages/LeadDetails.tsx:111-116 | the stage at index i shows round(100·(i+1)/6) |
| `LeadDetails.StageProgressValues` | src/pages/LeadDetails.tsx:111-116 | the stage at index i gives the i-th of 17, 33, 50, 67, 83 and 100 |
| `LeadDetails.StageProgressIncreasing` | src/pages/LeadDetails.tsx:111-116 | a later stage always shows strictly more progress |
| `LeadDetails.WithDefaults` | src/pages/LeadDetails.tsx:94-100 | the fetched record gets `tasks` and `activities` defaulted to empty and `stage` to `new`; nothing else changes |
| `LeadDetails.ReplaceByIdAt` | src/pages/LeadDetails.tsx:130-132 | the map keeps the length; every record with the id becomes the update, every other record is unchanged |
| `LeadDetails.ReplaceByIdIdempotent` | src/pages/LeadDetails.tsx:130-132 | replacing twice is replacing once |
| `LeadDetails.ReplaceByIdAbsent` | src/pages/LeadDetails.tsx:130-132 | an id that is not stored changes nothing |
| `LeadDetails.WithStage` | src/pages/LeadDetails.tsx:142-159 | the stage becomes the new one, even when unchanged; exactly one `stage_change` activity with the lead's id is appended after the old log; nothing else changes |
| `LeadDetails.WithAssignee` | src/pages/LeadDetails.tsx:162-180 | assignee and assignment date are set; exactly one `assignment` activity is appended after the old log; nothing else changes |
| `LeadDetails.WithTask` | src/pages/LeadDetails.tsx:183-198 | exactly one task, carrying the lead's id, the draft's fields and the date, is appended; the existing tasks are kept in order |
| `LeadDetails.SetCompletedAt` | src/pages/LeadDetails.tsx:204-206 | the count and order of tasks are kept; only tasks with the id change, and only in `completed` |
| `LeadDetails.SetCompletedIdempotent` | src/pages/LeadDetails.tsx:204-206 | completing twice is completing once |
| `LeadDetails.LeadDetailsPage.constructor` | src/pages/LeadDetails.tsx:85-86 | no lead, loading |
| `LeadDetails.LeadDetailsPage.FetchLead` | src/pages/LeadDetails.tsx:89-103 | loading ends; with the key set and the id stored, the first record with the id is shown with defaults; otherwise the lead stays as it was |
| `LeadDetails.LeadDetailsPage.UpdateLead` | src/pages/LeadDetails.tsx:126-134 | with the key set, the stored array becomes the replaced array and the update is shown; without it nothing changes |
| `LeadDetails.LeadDetailsPage.HandleStageUpdate` | src/pages/LeadDetails.tsx:142-159 | with a lead shown, stores and shows the record with the new stage; with no lead or no stored array, nothing changes |
| `LeadDetails.LeadDetailsPage.HandleAssign` | src/pages/LeadDetails.tsx:162-180 | with a lead shown, stores and shows the assigned record; with no lead or no stored array, nothing changes |
| `LeadDetails.LeadDetailsPage.HandleAddTask` | src/pages/LeadDetails.tsx:183-198 | with a lead shown, stores and shows the record with the task appended; with no lead or no stored array, nothing changes |
| `LeadDetails.LeadDetailsPage.HandleTaskComplete` | src/pages/LeadDetails.tsx:201-213 | with a lead that has a task array, stores and shows the record with the completion set; with no lead, no task array or no stored array, nothing changes |
| `Assignment.SplitPartition` | src/components/AssignmentDashboard.tsx:74-75 | both lists keep the stored order; their lengths add up to the total; together they hold every lead exactly once |
| `Assignment.AgentIndex` | src/components/AssignmentDashboard.tsx:84 | `findIndex` on the agent names: a position holding the name, or none exactly when the name is absent |
| `Assignment.AgentIndexOfName` | src/components/AssignmentDashboard.tsx:84 | with distinct names, an agent's lookup finds the agent's own position exactly when the name is theirs |
| `Assignment.CountStep` | src/components/AssignmentDashboard.tsx:81-89 | one more assigned lead raises exactly its agent's count by one |
| `Assignment.AgentLeadsOfStore` | src/components/AssignmentDashboard.tsx:180-182 | an agent's leads are exactly the stored leads with that assignee, in stored order |
| `Assignment.AssignOneMovesLead` | src/components/AssignmentDashboard.tsx:127-136 | assigning one unassigned lead takes exactly that lead off the unassigned list (as multisets) and adds it, with the new assignee, to the assigned list; each list's length changes by one |
| `Assignment.AutoAssigned` | src/components/AssignmentDashboard.tsx:101-109 | the auto-assign loop keeps the number of leads and every id in place |
| `Assignment.ResidueValue` | src/components/AssignmentDashboard.tsx:101-109 | among i < n, the number with i mod m = a is n div m, plus one when a < n mod m |
| `Assignment.ResidueBalanced` | src/components/AssignmentDashboard.tsx:101-109 | two agents' share of a round differs by at most one |
| `Assignment.SumIncrement` | src/components/AssignmentDashboard.tsx:107 | raising one counter raises the total by one |
| `Assignment.UnassignedAtRank` | src/components/AssignmentDashboard.tsx:75 | an unassigned lead sits in the unassigned list at its rank among the unassigned leads |
| `Assignment.AutoAssignedPrefix` | src/components/AssignmentDashboard.tsx:101-109 | after the first i rounds, exactly the unassigned leads of rank below i carry their round-robin agent; all others are unchanged |
| `Assignment.AutoAssignRoundRobin` | src/components/AssignmentDashboard.tsx:101-106 | the i-th unassigned lead, counted from 0, gets agent i mod m; every other lead is unchanged |
| `Assignment.AutoAssignLeavesNoneUnassigned` | src/components/AssignmentDashboard.tsx:101-117 | afterwards no lead is unassigned, and previously assigned leads keep their assignee |
| `Assignment.RoundRobin` | src/components/AssignmentDashboard.tsx:99-109 | the loop produces the auto-assigned leads; each agent's count rises by the number of rounds with its index; the total rises by the number of unassigned leads |
| `Assignment.AssignmentBoard.constructor` | src/components/AssignmentDashboard.tsx:48-64 | four agents at zero, filters `all`, empty search, no agent selected |
| `Assignment.CountAssigned` | src/components/AssignmentDashboard.tsx:80-89 | each agent's count rises by the number of assigned leads bearing that agent's name |
| `Assignment.AssignmentBoard.Load` | src/components/AssignmentDashboard.tsx:66-92 | with the key set, the lists are split from the stored array and each agent's count rises by its number of assigned leads, and the filters, search term and selected agent are kept; without it nothing changes |
| `Assignment.AssignmentBoard.AutoAssign` | src/components/AssignmentDashboard.tsx:94-121 | with no unassigned lead nothing changes; otherwise (`AutoAssignOutcome`) the round-robin result is stored and shown with its length kept, each agent's count rises by its residue and the total by the number of pending leads, the unassigned list empties when lead ids are unique, and the filters, search term and selected agent are kept |
| `Assignment.BumpAgent` | src/components/AssignmentDashboard.tsx:141-146 | only the agent the name lookup finds gains one; an unknown name changes no count |
| `Assignment.AssignmentBoard.ManualAssign` | src/components/AssignmentDashboard.tsx:123-148 | an unknown id changes nothing; otherwise only the record with the id changes, only the named agent's count rises, by one, and the filters, search term and selected agent are kept |
| `Assignment.AssignmentBoard.ToggleAgent` | src/components/AssignmentDashboard.tsx:229 | clicking the selected agent clears the selection; clicking another selects that agent |
| `Assignment.AssignmentBoard.FilterUnassignedLeads` | src/components/AssignmentDashboard.tsx:150-176 | the result equals the conjunctive filter of the unassigned leads, keeps their order, and is all of them when no filter is set |
| `Assignment.AssignmentBoard.GetAgentLeads` | src/components/AssignmentDashboard.tsx:180-182 | exactly the leads assigned to that agent, in stored order |
| `Tallies.Bump` | src/components/ConversionDashboard.tsx:72 | the key's count rises by one |
| `Tallies.BumpKeys` | src/components/ConversionDashboard.tsx:72 | an existing key keeps its place; a new key goes to the end |
| `Tallies.BumpOther` | src/components/ConversionDashboard.tsx:72 | every other key keeps its count |
| `Tallies.TallyByGet` | src/components/ConversionDashboard.tsx:70-80 | the count under a key is the number of leads with that field value |
| `Tallies.TallyByDistinct` | src/components/ConversionDashboard.tsx:70-80 | each key appears once |
| `Tallies.TallyByKeys` | src/components/ConversionDashboard.tsx:70-80 | a key is present exactly when some lead has that value |
| `Tallies.TallyByTotal` | src/components/ConversionDashboard.tsx:70-80 | the counts add up to the number of leads |
| `Tallies.TallyByCounts` | src/components/ConversionDashboard.tsx:70-80 | every count lies between 1 and the number of leads |
| `Tallies.SumCountsIsCount` | src/components/ConversionDashboard.tsx:65-68 | per-key counts over distinct keys add up to the number of leads whose value is among them |
| `Conversion.InitialStats` | src/components/ConversionDashboard.tsx:49-57 | the counter object has exactly the seven keys, `total` starting at the number of leads and every stage at zero |
| `Conversion.CountStage` | src/components/ConversionDashboard.tsx:65-68 | exactly the lead's own counter rises by one, if it is a key |
| `Conversion.StatsStep` | src/components/ConversionDashboard.tsx:63-68 | one more lead keeps each counter equal to its count over the leads seen |
| `Conversion.CountStageSnoc` | src/components/ConversionDashboard.tsx:64-67 | one more lead raises the count of its defaulted stage by one and no other count |
| `Conversion.Compile` | src/components/ConversionDashboard.tsx:49-81 | the loop yields the seven counters, each the number of leads with that defaulted stage (plus the number of leads for `total`), and the count objects by source, purpose and property type |
| `Conversion.TotalCounter` | src/components/ConversionDashboard.tsx:50-68 | `total` is the number of leads plus the leads whose stage is literally `total`; it equals the number of leads exactly when there are none of those |
| `Conversion.ShownStageTotalIsCount` | src/components/ConversionDashboard.tsx:63-68 | the six stage counters add up to the number of leads whose defaulted stage is one of the six |
| `Conversion.StageCountersSum` | src/components/ConversionDashboard.tsx:63-68 | the six stage counters add up to at most the number of leads and at most `total` |
| `Conversion.StagePercentage` | src/components/ConversionDashboard.tsx:96-100 | 0 when `total` is 0; at most 100 when the count does not exceed `total`; 100 when it equals a positive `total` |
| `Conversion.StagePercentageNearest` | src/components/ConversionDashboard.tsx:96-100 | with a positive `total`, the percentage is 100·count/total rounded to the nearest integer, halves up |
| `Conversion.StagePercentageBounded` | src/components/ConversionDashboard.tsx:96-100 | on compiled counters, every stage percentage is at most 100 |
| `Conversion.ConversionRate` | src/components/ConversionDashboard.tsx:89-92 | the rate is at most 100 |
| `Conversion.ConversionRateNearest` | src/components/ConversionDashboard.tsx:89-92 | the rate is 100·closed/n rounded to the nearest integer, halves up, with `closed` tested without defaulting |
| `Conversion.RateOrKeep` | src/components/ConversionDashboard.tsx:89-92 | with at least one lead the rate is computed; with none the old rate stays |
| `Conversion.ConversionRateMatchesCounter` | src/components/ConversionDashboard.tsx:89-92 | the rate agrees with the rounded `closed` counter over the number of leads |
| `Conversion.GetTopSource` | src/components/ConversionDashboard.tsx:102-120 | the count is the largest; the source is the first key reaching it, with underscores as spaces; an empty or all-zero object gives `""` and 0; the percentage is 0 when `total` is 0 |
| `Conversion.BreakdownOrdered` | src/components/ConversionDashboard.tsx:302-304 | the breakdown lists the same entries with non-increasing counts |
| `Conversion.BreakdownTotalPositive` | src/components/ConversionDashboard.tsx:301-305 | a non-empty breakdown implies `total` > 0, so the row percentages never divide by 0 |
| `Conversion.ConversionDashboard.constructor` | src/components/ConversionDashboard.tsx:25-40 | no leads, counters at zero, rate 0, empty count objects |
| `Conversion.ConversionDashboard.Load` | src/components/ConversionDashboard.tsx:42-93 | with the key set, the counters and count objects are those of the stored leads, and the rate is set only when there are leads; without the key nothing changes |
| `Conversion.ConversionDashboard.TopSourceSummary` | src/components/ConversionDashboard.tsx:102-120 | the same summary as `GetTopSource` (`IsTopSource`) over the stored source counts and the `total` counter: the largest count, reached by the first key that reaches it, shown with underscores as spaces, `""` with 0, and the percentage of `total` |
| `Conversion.TopSourceUnique` | src/components/ConversionDashboard.tsx:102-120 | the summary is determined by the counts and the total: two summaries that both qualify are equal |
| `Dashboard.FilterPipeline` | src/components/Dashboard.tsx:62-93 | the successive filters compute the conjunctive match of purpose, property type, timeline and search |
| `Dashboard.MatchingLeadsFacts` | src/components/Dashboard.tsx:64-92 | the result keeps stored order; a lead is kept exactly when every set filter and the search match; with nothing set, all leads are kept |
| `Dashboard.GetInquiryStats` | src/components/Dashboard.tsx:95-103 | the four purpose counts add up to the leads with one of those purposes, so to at most the number of leads |
| `Dashboard.InquiryStatsSum` | src/components/Dashboard.tsx:95-103 | the four separate counts add up to one count over the four purposes |
| `Dashboard.GetPropertyTypeStats` | src/components/Dashboard.tsx:105-110 | the counts add up to the number of leads, keys are distinct and each count is the number of leads of that type |
| `Dashboard.DashboardView.constructor` | src/components/Dashboard.tsx:43-50 | empty lists, filters `all`, empty search |
| `Dashboard.DashboardView.Load` | src/components/Dashboard.tsx:52-60 | with the key set, both lists become the stored array; otherwise nothing changes |
| `Dashboard.DashboardView.ApplyFilters` | src/components/Dashboard.tsx:62-93 | the filtered list is the match of the current filters over the leads |
| `Dashboard.DashboardView.ClearFilters` | src/components/Dashboard.tsx:262-265 | every filter becomes `all` and the search empty; the lists are unchanged |
| `Dashboard.DashboardView.Recent` | src/components/Dashboard.tsx:309-312 | the leads are sorted newest first in place, as a permutation; the first min(6, n) are shown, each at least as new as every lead not shown |
| `TaskReminder.Validate` | src/components/TaskReminder.tsx:49-82 | blank title first, then missing due date, then blank assignee; a task is added exactly when all three pass, untrimmed and not completed |
| `TaskReminder.ValidateWhitespace` | src/components/TaskReminder.tsx:49-74 | blank means made only of whitespace |
| `TaskReminder.TaskForm.constructor` | src/components/TaskReminder.tsx:40-44 | form hidden, fields empty, assignee from the lead |
| `TaskReminder.TaskForm.SetShown` | src/components/TaskReminder.tsx:185 | shows or hides the form; the fields stay |
| `TaskReminder.TaskForm.Submit` | src/components/TaskReminder.tsx:46-94 | on a failed guard nothing changes; on success the draft is handed over, title, description and due date are cleared, the form hides and the assignee stays |
| `TaskReminder.SortedTasksOrder` | src/components/TaskReminder.tsx:96-105 | a permutation of the tasks, empty without tasks; open tasks come before completed ones, and within a status due dates never decrease |
| `TaskReminder.PastDueFirst` | src/components/TaskReminder.tsx:204 | an overdue task is open, so every task listed before it is open and due no later |
| `TimelineTracker.ActivityEvents` | src/components/TimelineTracker.tsx:99-110 | one event per activity, in log order, with the activity's date, type and text |
| `TimelineTracker.PushActivities` | src/components/TimelineTracker.tsx:101-109 | the inner loop appends the activity events |
| `TimelineTracker.PushLead` | src/components/TimelineTracker.tsx:76-110 | one lead's pushes: creation, the assignment when recorded, then the activities |
| `TimelineTracker.BuildEvents` | src/components/TimelineTracker.tsx:75-111 | the loop builds the events of every lead in stored order |
| `TimelineTracker.EventCount` | src/components/TimelineTracker.tsx:76-111 | the number of events is the number of leads, plus the leads with both assignee and date, plus all activities |
| `TimelineTracker.EventsCarryLead` | src/components/TimelineTracker.tsx:81-107 | every event carries the id, full name and hot flag of one of the leads |
| `TimelineTracker.DetailAssignmentEvents` | src/components/TimelineTracker.tsx:87-110 | a lead assigned through the detail page shows two more assignment events than its earlier log holds, both dated at the assignment |
| `TimelineTracker.SortedNewestFirst` | src/components/TimelineTracker.tsx:114-116 | sorting keeps the events and orders dates non-increasing |
| `TimelineTracker.FilteredEventsFacts` | src/components/TimelineTracker.tsx:125-129 | `all` gives every event; `hot` gives exactly the hot ones; any other filter gives exactly the events of that type; always a subsequence |
| `TimelineTracker.DayLabel` | src/components/TimelineTracker.tsx:256-260 | `Today` exactly for 0, `Yesterday` exactly for 1, otherwise `N days ago` |
| `TimelineTracker.SeparatorIffDayGap` | src/components/TimelineTracker.tsx:288-292 | a separator follows an event exactly when there is a next event at least one whole day older; never after the last |
| `TimelineTracker.TimelineTrackerView.constructor` | src/components/TimelineTracker.tsx:58-60 | no events, filter `all`, loading |
| `TimelineTracker.TimelineTrackerView.FetchTimelineData` | src/components/TimelineTracker.tsx:62-121 | loading ends; with the key set the events are built and sorted newest first; without it the list stays as it was |
| `TimelineTracker.TimelineTrackerView.SetFilter` | src/components/TimelineTracker.tsx:161-195 | a filter button sets the filter and keeps the events |
| `TimelineTracker.TimelineTrackerView.Shown` | src/components/TimelineTracker.tsx:125-129 | the rendered list is a subsequence of the events |
| `LeadTimeline.ActivityEntries` | src/components/LeadTimeline.tsx:87-89 | one entry per activity, in log order |
| `LeadTimeline.PushTasks` | src/components/LeadTimeline.tsx:63-84 | the task loop appends a creation entry per task and a completion entry per completed task |
| `LeadTimeline.CreateTimelineEvents` | src/components/LeadTimeline.tsx:40-95 | the result is the sorted list of creation, assignment, task and activity entries |
| `LeadTimeline.TimelineLength` | src/components/LeadTimeline.tsx:44-89 | 1, plus 1 when assigned, plus the tasks, plus the completed tasks, plus the activities |
| `LeadTimeline.TimelineKinds` | src/components/LeadTimeline.tsx:44-89 | per type: one `creation`; one `assignment` exactly when both fields are set; one `task_created` per task; one `task_completed` per completed task; plus the activities of that type |
| `LeadTimeline.TimelineHasFieldEvents` | src/components/LeadTimeline.tsx:45-60 | the `lead-creation` entry, dated at creation, is in the list, and so is `lead-assignment` when recorded |
| `LeadTimeline.TaskEventIdFacts` | src/components/LeadTimeline.tsx:67-76 | task entry ids determine the task id, creation and completion ids never coincide, and neither is a fixed id |
| `LeadTimeline.TasksEventsDistinct` | src/components/LeadTimeline.tsx:63-84 | with distinct task ids, the task entries have distinct ids |
| `LeadTimeline.FieldEventsDistinct` | src/components/LeadTimeline.tsx:44-84 | with distinct task ids, every entry not taken from the log has its own id |
| `LeadTimeline.TimelineSorted` | src/components/LeadTimeline.tsx:92-94 | the returned list holds the pushed entries with non-increasing dates |
| `LeadForm.StepFields` | src/components/LeadForm.tsx:107-113 | step 1 validates five fields, step 2 six, any other step none |
| `LeadForm.StepOneRule` | src/components/LeadForm.tsx:44-48 | step 1 passes exactly when both names have at least 2 characters, the number at least 10, the email passes and the contact method is listed |
| `LeadForm.StepTwoRule` | src/components/LeadForm.tsx:51-56 | step 2 passes exactly when the property type is listed, the budget has 2 numbers and the location is non-empty |
| `LeadForm.SchemaValidAdvances` | src/components/LeadForm.tsx:106-121 | values satisfying the schema pass every step; step 3 always passes |
| `LeadForm.DefaultsNeedNames` | src/components/LeadForm.tsx:84-103 | the defaults fill every choice with a listed value but cannot pass step 1 |
| `LeadForm.ToggleAmenity` | src/components/LeadForm.tsx:494-502 | checking appends the id after the old list; unchecking removes every occurrence and keeps the rest in order |
| `LeadForm.ToggleRoundTrip` | src/components/LeadForm.tsx:494-502 | checking then unchecking an unselected amenity restores the list |
| `LeadForm.UncheckIdempotent` | src/components/LeadForm.tsx:498-502 | unchecking twice is unchecking once |
| `LeadForm.NewLead` | src/components/LeadForm.tsx:140-144 | the stored record has the given id and date, each of the form's sixteen fields copied unchanged into its own field, and no assignee, stage, tasks, log or hot flag |
| `LeadForm.LeadFormState.constructor` | src/components/LeadForm.tsx:80-104 | step 1, not submitting, default values |
| `LeadForm.LeadFormState.Edit` | src/components/LeadForm.tsx:84-104 | field edits replace the values and keep the step |
| `LeadForm.LeadFormState.NextStep` | src/components/LeadForm.tsx:106-121 | the step rises by exactly one when the step's fields validate, otherwise stays; it stays within 1 to 4 |
| `LeadForm.LeadFormState.PrevStep` | src/components/LeadForm.tsx:123-126 | the step falls by one and stays within 1 to 4 |
| `LeadForm.LeadFormState.Submit` | src/components/LeadForm.tsx:128-159 | when the schema holds and the save succeeds, one new lead is appended to the stored array, a missing key reading as empty; otherwise the store is unchanged; submitting ends false |
| `LeadForm.SubmitAppends` | src/components/LeadForm.tsx:139-145 | the existing leads stay in place and one lead is added at the end |
| `AssignForm.ManualAssignee` | src/components/AssignLeadForm.tsx:24-36 | an empty or whitespace-only name is refused; any other name passes untrimmed |
| `AssignForm.AssignLeadForm.constructor` | src/components/AssignLeadForm.tsx:22-23 | the current assignee or `""`, suggestions hidden |
| `AssignForm.AssignLeadForm.Edit` | src/components/AssignLeadForm.tsx:65 | typing sets the assignee |
| `AssignForm.AssignLeadForm.ManualAssign` | src/components/AssignLeadForm.tsx:24-41 | a refused name changes nothing; otherwise `onAssign` gets the name and suggestions hide |
| `AssignForm.AssignLeadForm.SelectAgent` | src/components/AssignLeadForm.tsx:43-52 | the agent becomes the assignee and is assigned; suggestions hide |
| `AssignForm.AssignLeadForm.ToggleSuggestions` | src/components/AssignLeadForm.tsx:82 | the suggestions button flips the flag |
| `AssignForm.SuggestedAgentsPass` | src/components/AssignLeadForm.tsx:13-18 | every suggested agent passes the blank-name guard |
| `LeadCard.TimelineText` | src/components/LeadCard.tsx:71-86 | the five codes get their labels; other input is `SpaceUnderscores` of it: each `_` becomes a space, every other character is kept, and it is unchanged when it has no `_` |
| `LeadCard.TimelineTextClean` | src/components/LeadCard.tsx:71-86 | no label ever shows an underscore |
| `LeadCard.TimelineLabelsDistinct` | src/components/LeadCard.tsx:73-82 | the five labels are distinct |
| `LeadCard.InquiryColor` | src/components/LeadCard.tsx:57-67 | blue for buy, green for rent, purple for investment, grey exactly for anything else |
| `Text.CapitalizeFirst` | src/components/LeadCard.tsx:107 | for any text, the length is kept, the first character is upper-cased and the rest is unchanged; empty text stays empty |
| `LeadCard.PurposeBadge` | src/components/LeadCard.tsx:107 | the four purposes read Buy, Rent, Investment and Other |
| `Text.BlankIffAllWhitespace` | src/components/TaskReminder.tsx:49 | `!s.trim()` holds exactly when every character is whitespace |
| `Text.SpaceUnderscores` | src/components/ConversionDashboard.tsx:114 | same length, each `_` becomes a space, nothing else changes |
| `Text.IncludesIffOccurs` | src/components/Dashboard.tsx:80-90 | `includes` holds exactly when the term occurs at some position |
| `Common.RoundPercent` | src/components/ConversionDashboard.tsx:91 | 0 for 0, 100 for the whole, at most 100 for a part |
| `Common.RoundPercentNearest` | src/components/ConversionDashboard.tsx:91 | the result r satisfies r − ½ ≤ 100·part/whole < r + ½: the nearest integer, halves up |
| `Sorting.SortBySorted` | src/components/Dashboard.tsx:310 | the sort orders by its comparator key |
| `Sorting.SortBy` | src/components/TaskReminder.tsx:97 | the sorted copy has the same length and elements |
| `Seqs.FilterAll` | src/components/AssignmentDashboard.tsx:74 | every element a filter keeps passes its test |
| `Seqs.FilterCompose` | src/components/Dashboard.tsx:64-92 | successive filters are one filter by the conjunction |
| `Seqs.FilterPartition` | src/components/AssignmentDashboard.tsx:74-75 | a filter and its negation split an array, every element going to exactly one part |
| `Seqs.CountPermutation` | src/components/LeadTimeline.tsx:92-94 | rearranging does not change how many elements pass a test |

## Left out

- JSX rendering, styling, icons, toasts, routing and `navigate` calls. They have no behaviour beyond what the table lists.
- `JSON.parse` and `JSON.stringify`. A write stores the array as it is, and a missing key is the `present` flag. Malformed stored JSON is not modelled.
- The artificial one-second delay, `window.scrollTo`, `console.log`, `IntersectionObserver` and the header scroll listener. They are browser effects.
- Id generation and the clock. Ids and "now" are parameters.
- The date library's parsing and formatting (`parseISO`, `format`, `formatDistanceToNow`), `Intl.NumberFormat` and react-hook-form's resolver plumbing. They are foreign code.
- The email-address check of the validation library. It is the parameter `emailOk`.
- `TimelineTracker.DaysBetween` truncates the millisecond difference by whole days. It ignores time zones and daylight-saving shifts, which the date library takes into account.
- `TimelineTracker.DayLabel` takes the day difference to the current date as an integer input.
- Floating point. `Math.round(100 * a / b)` is exact half-up rounding, so binary artefacts at exact halves are not reproduced.
- The form's progress-bar width `((step - 1) / 3) * 100`.
- Case mapping and trimming beyond their stated character sets. Upper- and lower-casing are ASCII only. Trimming uses the ECMAScript whitespace and line-terminator set.
- Object property order. Count objects keep insertion order. JavaScript's rule that integer-like keys come first is not modelled.
- Inherited prototype keys seen by `in`. The stage test's acceptance of the own key `total` is modelled.
- `Tallies.TallyByGet`: the count objects start from `{}`, so the lookup `map[k] || 0` also sees inherited prototype keys. A field value such as `constructor` or `toString` would make the source store a string, and `__proto__` would lose its count. The model treats every key as a fresh counter. The form's own enum values never hit these keys.
- `Dashboard.GetPropertyTypeStats`: the same inherited-key lookups in its `acc[k] || 0` reduce are not modelled, for the same reason.
- `LeadForm.StepOneRule`: string lengths are counted in characters (Unicode scalar values), not in the UTF-16 code units the validation library's `.min(n)` counts. A name of one character outside the Basic Multilingual Plane passes the source's length rule but fails the model's.
- `LeadForm.FieldValid`: counts lengths in characters too, not UTF-16 code units, as in the line above.
- React's asynchronous state batching, StrictMode's double effects and object aliasing:
  - the shared lead objects that the assignment dashboard mutates;
  - the module-level `dummyAgents` array whose counts it raises.

  Each page is one object whose handlers run to completion, and the agent counts are a sequence owned by the board.
- `LeadForm.LeadFormState.Submit` models only the final state. `isSubmitting` being true while the save runs is not observable in it.
- `LeadForm.LeadFormState.Submit` treats the save's possible failure as the input `saveOk`.
- `LeadTimeline.ActivityEntry` keeps an activity's id, type, description, date and performer. It drops the `leadId` field, which the timeline does not show.
- `Assignment.AutoAssignRoundRobin` and `Assignment.AutoAssignLeavesNoneUnassigned` require distinct lead ids. With duplicate ids, `findIndex` would assign the first duplicate twice.
- `Sorting.SortBy` is a stable insertion sort. Its stability is not stated as a contract.
- Agent initials, the lead cards' remaining display text and the last-contact field. These are presentation.
- The pages and components with no such logic: src/pages/Index.tsx, src/components/Header.tsx, src/pages/LeadCapture.tsx, src/pages/LeadsOverview.tsx and src/components/CustomLeadCard.tsx.
