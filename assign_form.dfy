/**
 * The assignee box on the detail page: a free-text name checked against
 * a blank-name guard, and a list of suggested agents that assign on click.
 */
module AssignForm {
  import opened Common
  import opened Text

  /** The suggested agents. */
  const SuggestedAgents: seq<string> := ["Sarah Johnson", "Michael Chen", "Jessica Patel", "David Rodriguez"]

  /** The blank-name guard: the name handed to `onAssign`, untrimmed, or `None` when it is empty or only whitespace. */
  function ManualAssignee(assignee: string): (r: Option<string>)
    ensures r.None? <==> AllWhitespace(assignee)
    ensures r.Some? ==> r.value == assignee
  {
    BlankIffAllWhitespace(assignee);
    if IsBlank(assignee) then None else Some(assignee)
  }

  /** The box's state. */
  class AssignLeadForm {
    var assignee: string
    var showSuggestions: bool

    /** `currentAssignee || ''`, with `""` standing for no current assignee. */
    constructor (currentAssignee: string)
      ensures assignee == currentAssignee && !showSuggestions
    {
      assignee := currentAssignee;
      showSuggestions := false;
    }

    /** Typing in the box. */
    method Edit(value: string)
      modifies this
      ensures assignee == value && showSuggestions == old(showSuggestions)
    {
      assignee := value;
    }

    /**
     * `handleManualAssign`: returns the name `onAssign` is called with, or
     * `None` when the guard stops it; a stopped call changes nothing.
     */
    method ManualAssign() returns (called: Option<string>)
      modifies this
      ensures called == ManualAssignee(old(assignee))
      ensures assignee == old(assignee)
      ensures called.None? ==> showSuggestions == old(showSuggestions)
      ensures called.Some? ==> !showSuggestions
    {
      called := ManualAssignee(assignee);
      if called.None? {
        return;
      }
      showSuggestions := false;
    }

    /** `handleSelectAgent`: the clicked agent becomes the assignee and is called; the list closes. */
    method SelectAgent(agentName: string) returns (called: string)
      requires agentName in SuggestedAgents
      modifies this
      ensures assignee == agentName && called == agentName && !showSuggestions
    {
      assignee := agentName;
      called := agentName;
      showSuggestions := false;
    }

    /** The suggestions button. */
    method ToggleSuggestions()
      modifies this
      ensures showSuggestions == !old(showSuggestions) && assignee == old(assignee)
    {
      showSuggestions := !showSuggestions;
    }
  }

  /** A suggested agent always passes the blank-name guard. */
  lemma SuggestedAgentsPass(agentName: string)
    requires agentName in SuggestedAgents
    ensures ManualAssignee(agentName) == Some(agentName)
  {
    assert !IsWhitespace(agentName[0]);
  }
}
