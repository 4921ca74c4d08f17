/**
 * The assignment dashboard: it splits the stored leads into assigned and
 * unassigned ones, keeps a count of active leads per agent, hands out the
 * unassigned leads round-robin or one at a time, and filters the
 * unassigned list by location, property type and a search term.
 *
 * The agents are the dashboard's fixed roster; their counts are a
 * sequence owned by the dashboard.
 */
module Assignment {
  import opened Common
  import opened Leads
  import opened Seqs
  import opened Text

  /** The names of the dashboard's built-in agents, in roster order. */
  const DummyAgents: seq<string> := ["Sarah Johnson", "Michael Chen", "Jessica Patel", "David Rodriguez"]

  /** `leads.filter(lead => lead.assignedTo)` */
  function AssignedOf(ls: seq<Lead>): seq<Lead> {
    Filter(ls, IsAssigned)
  }

  /** `leads.filter(lead => !lead.assignedTo)` */
  function UnassignedOf(ls: seq<Lead>): seq<Lead> {
    Filter(ls, IsUnassigned)
  }

  /**
   * The split is a partition: both lists keep the original order and
   * every lead lands in exactly one of them.
   */
  lemma SplitPartition(ls: seq<Lead>)
    ensures IsSubsequence(AssignedOf(ls), ls) && IsSubsequence(UnassignedOf(ls), ls)
    ensures |AssignedOf(ls)| + |UnassignedOf(ls)| == |ls|
    ensures multiset(AssignedOf(ls)) + multiset(UnassignedOf(ls)) == multiset(ls)
  {
    FilterIsSubsequence(ls, IsAssigned);
    FilterIsSubsequence(ls, IsUnassigned);
    FilterPartition(ls, IsAssigned, IsUnassigned);
  }

  /** `agents.findIndex(agent => agent.name === name)`, with `None` for -1. */
  function AgentIndex(names: seq<string>, name: string): (r: Option<nat>)
    ensures r.Some? ==> r.value < |names| && names[r.value] == name
    ensures r.None? <==> name !in names
  {
    if names == [] then None
    else if names[0] == name then Some(0)
    else match AgentIndex(names[1..], name)
      case None => None
      case Some(k) => Some(k + 1)
  }

  predicate Distinct(names: seq<string>) {
    forall i, j :: 0 <= i < |names| && 0 <= j < |names| && i != j ==> names[i] != names[j]
  }

  /** With distinct names, an agent's position is found exactly when its own name is looked up. */
  lemma AgentIndexOfName(names: seq<string>, a: nat, name: string)
    requires Distinct(names) && a < |names|
    ensures AgentIndex(names, name) == Some(a) <==> names[a] == name
  {
    if names[a] == name {
      assert name in names;
    }
  }

  /** `assignedLeads.filter(lead => lead.assignedTo === agentName)` */
  function AgentLeads(assignedLeads: seq<Lead>, agentName: string): seq<Lead> {
    Filter(assignedLeads, (l: Lead) => l.assignedTo == agentName)
  }

  lemma AgentLeadsSnoc(ls: seq<Lead>, lead: Lead, agentName: string)
    ensures |AgentLeads(ls + [lead], agentName)|
      == |AgentLeads(ls, agentName)| + (if lead.assignedTo == agentName then 1 else 0)
  {
    FilterConcat(ls, [lead], (l: Lead) => l.assignedTo == agentName);
  }

  /** Adding one lead raises the count of its assignee, found by name, and of no one else. */
  lemma CountStep(names: seq<string>, ls: seq<Lead>, lead: Lead)
    requires Distinct(names)
    ensures forall a :: 0 <= a < |names| ==>
      |AgentLeads(ls + [lead], names[a])| == |AgentLeads(ls, names[a])|
        + (if AgentIndex(names, lead.assignedTo) == Some(a) then 1 else 0)
  {
    forall a | 0 <= a < |names|
      ensures |AgentLeads(ls + [lead], names[a])| == |AgentLeads(ls, names[a])|
        + (if AgentIndex(names, lead.assignedTo) == Some(a) then 1 else 0)
    {
      AgentLeadsSnoc(ls, lead, names[a]);
      AgentIndexOfName(names, a, lead.assignedTo);
    }
  }

  /** An agent's list is exactly the stored leads assigned to that agent, in stored order. */
  lemma AgentLeadsOfStore(ls: seq<Lead>, agentName: string)
    requires agentName != ""
    ensures AgentLeads(AssignedOf(ls), agentName) == Filter(ls, (l: Lead) => l.assignedTo == agentName)
  {
    FilterCompose(ls, IsAssigned, (l: Lead) => l.assignedTo == agentName, (l: Lead) => l.assignedTo == agentName);
  }

  /** `updatedLeads[index].assignedTo = name`, when the lookup found an index. */
  function SetAssignee(ls: seq<Lead>, index: Option<nat>, name: string): seq<Lead> {
    if index.Some? && index.value < |ls| then ls[index.value := ls[index.value].(assignedTo := name)] else ls
  }

  /**
   * Assigning an unassigned lead to a named agent takes exactly that lead
   * off the unassigned list and puts it on the assigned one.
   */
  lemma {:induction false} AssignOneMovesLead(ls: seq<Lead>, k: nat, name: string)
    requires k < |ls| && IsUnassigned(ls[k]) && name != ""
    ensures multiset(UnassignedOf(SetAssignee(ls, Some(k), name))) + multiset{ls[k]} == multiset(UnassignedOf(ls))
    ensures multiset(AssignedOf(SetAssignee(ls, Some(k), name))) == multiset(AssignedOf(ls)) + multiset{ls[k].(assignedTo := name)}
    ensures |UnassignedOf(SetAssignee(ls, Some(k), name))| + 1 == |UnassignedOf(ls)|
    ensures |AssignedOf(SetAssignee(ls, Some(k), name))| == |AssignedOf(ls)| + 1
  {
    var moved := ls[k].(assignedTo := name);
    var r := ls[k := moved];
    assert SetAssignee(ls, Some(k), name) == r;
    assert IsAssigned(moved) && !IsUnassigned(moved) && !IsAssigned(ls[k]);
    FilterReplace(ls, k, moved, IsUnassigned);
    assert multiset(UnassignedOf(r)) + multiset{ls[k]} == multiset(UnassignedOf(ls));
    FilterReplace(ls, k, moved, IsAssigned);
    assert multiset(AssignedOf(r)) == multiset(AssignedOf(ls)) + multiset{moved};
    assert |multiset(UnassignedOf(r))| + 1 == |multiset(UnassignedOf(ls))|;
    assert |multiset(AssignedOf(r))| == |multiset(AssignedOf(ls))| + 1;
  }

  /**
   * The leads after the round-robin loop has processed the unassigned
   * leads `us`: the k-th of them is looked up by id and given agent
   * `k mod m`.
   */
  function AutoAssigned(ls: seq<Lead>, us: seq<Lead>, names: seq<string>): (r: seq<Lead>)
    requires |names| > 0
    ensures |r| == |ls| && forall j :: 0 <= j < |ls| ==> r[j].id == ls[j].id
    decreases |us|
  {
    if us == [] then ls
    else
      var prev := AutoAssigned(ls, us[..|us| - 1], names);
      SetAssignee(prev, FindIndex(prev, us[|us| - 1].id), names[(|us| - 1) % |names|])
  }

  /** The number of loop indices i < n with i mod m == a: what auto-assign adds to agent a's counter. */
  function Residue(n: nat, m: nat, a: nat): nat
    requires m > 0
  {
    if n == 0 then 0 else Residue(n - 1, m, a) + (if (n - 1) % m == a then 1 else 0)
  }

  lemma DivModUnique(n: int, m: int, q: int, r: int)
    requires m > 0 && 0 <= r < m && n == q * m + r
    ensures n / m == q && n % m == r
  {
    var q', r' := n / m, n % m;
    assert (q - q') * m == r' - r;
    if q > q' {
      MulAtLeast(q - q', m);
    } else if q < q' {
      MulAtLeast(q' - q, m);
    }
  }

  lemma MulAtLeast(k: int, m: int)
    requires k >= 1 && m > 0
    ensures k * m >= m
  {
  }

  /** How the quotient and remainder move when the dividend goes up by one. */
  lemma DivModStep(p: nat, m: nat)
    requires m > 0
    ensures p % m == m - 1 ==> (p + 1) / m == p / m + 1 && (p + 1) % m == 0
    ensures p % m < m - 1 ==> (p + 1) / m == p / m && (p + 1) % m == p % m + 1
  {
    var q, r := p / m, p % m;
    if r == m - 1 {
      assert p + 1 == (q + 1) * m + 0;
      DivModUnique(p + 1, m, q + 1, 0);
    } else {
      DivModUnique(p + 1, m, q, r + 1);
    }
  }

  /** Agent a receives n div m leads, plus one more when a < n mod m. */
  lemma {:induction false} ResidueValue(n: nat, m: nat, a: nat)
    requires m > 0 && a < m
    ensures Residue(n, m, a) == n / m + (if a < n % m then 1 else 0)
  {
    if n == 0 {
      DivModUnique(0, m, 0, 0);
    } else {
      ResidueValue(n - 1, m, a);
      DivModStep(n - 1, m);
    }
  }

  /** Round-robin is balanced: any two agents' increases differ by at most one. */
  lemma ResidueBalanced(n: nat, m: nat, a: nat, b: nat)
    requires m > 0 && a < m && b < m
    ensures -1 <= Residue(n, m, a) - Residue(n, m, b) <= 1
  {
    ResidueValue(n, m, a);
    ResidueValue(n, m, b);
  }

  function Sum(s: seq<nat>): nat {
    if s == [] then 0 else s[0] + Sum(s[1..])
  }

  lemma {:induction false} SumIncrement(s: seq<nat>, a: nat)
    requires a < |s|
    ensures Sum(s[a := s[a] + 1]) == Sum(s) + 1
  {
    if a > 0 {
      SumIncrement(s[1..], a - 1);
      assert s[a := s[a] + 1][1..] == s[1..][a - 1 := s[a] + 1];
    }
  }

  /** How many unassigned leads come before position j: lead j, if unassigned, is that many-th (from 0). */
  function Rank(ls: seq<Lead>, j: nat): nat
    requires j <= |ls|
  {
    |UnassignedOf(ls[..j])|
  }

  lemma RankStep(ls: seq<Lead>, j: nat)
    requires j < |ls|
    ensures Rank(ls, j + 1) == Rank(ls, j) + (if IsUnassigned(ls[j]) then 1 else 0)
  {
    assert ls[..j + 1] == ls[..j] + [ls[j]];
    FilterConcat(ls[..j], [ls[j]], IsUnassigned);
  }

  lemma {:induction false} RankMonotone(ls: seq<Lead>, i: nat, j: nat)
    requires i <= j <= |ls|
    ensures Rank(ls, i) <= Rank(ls, j)
    decreases j - i
  {
    if i < j {
      RankStep(ls, i);
      RankMonotone(ls, i + 1, j);
    }
  }

  /** Unassigned positions have distinct, increasing ranks. */
  lemma RankStrict(ls: seq<Lead>, i: nat, j: nat)
    requires i < j <= |ls| && IsUnassigned(ls[i])
    ensures Rank(ls, i) < Rank(ls, j)
  {
    RankStep(ls, i);
    RankMonotone(ls, i + 1, j);
  }

  /** An unassigned lead sits in the unassigned list at its rank. */
  lemma UnassignedAtRank(ls: seq<Lead>, j: nat)
    requires j < |ls| && IsUnassigned(ls[j])
    ensures Rank(ls, j) < |UnassignedOf(ls)| && UnassignedOf(ls)[Rank(ls, j)] == ls[j]
  {
    assert ls == ls[..j] + ls[j..];
    FilterConcat(ls[..j], ls[j..], IsUnassigned);
    assert ls[j..] == [ls[j]] + ls[j + 1..];
    FilterConcat([ls[j]], ls[j + 1..], IsUnassigned);
  }

  lemma RankAll(ls: seq<Lead>)
    ensures Rank(ls, |ls|) == |UnassignedOf(ls)|
  {
    assert ls[..|ls|] == ls;
  }

  /** Every entry of the unassigned list is some unassigned position's lead, found at its rank. */
  lemma {:induction false} PositionOfRank(ls: seq<Lead>, k: nat, from: nat) returns (j: nat)
    requires from <= |ls| && Rank(ls, from) <= k < |UnassignedOf(ls)|
    ensures from <= j < |ls| && IsUnassigned(ls[j]) && Rank(ls, j) == k
    decreases |ls| - from
  {
    RankAll(ls);
    RankStep(ls, from);
    if Rank(ls, from + 1) > k {
      j := from;
    } else {
      j := PositionOfRank(ls, k, from + 1);
    }
  }

  /** What the loop has done after its first i turns, when the ids are unique. */
  predicate AssignedUpTo(ls: seq<Lead>, r: seq<Lead>, names: seq<string>, i: nat)
    requires |names| > 0
  {
    && |r| == |ls|
    && forall j :: 0 <= j < |ls| ==>
      r[j] == if IsUnassigned(ls[j]) && Rank(ls, j) < i
        then ls[j].(assignedTo := names[Rank(ls, j) % |names|])
        else ls[j]
  }

  /**
   * One turn of the loop on a lead taken from the array: its id is found,
   * and the fold over one more lead assigns it agent `i mod m`.
   */
  lemma AutoAssignedSnoc(ls: seq<Lead>, us: seq<Lead>, names: seq<string>, i: nat)
    requires |names| > 0 && i < |us| && us[i] in ls
    ensures FindIndex(AutoAssigned(ls, us[..i], names), us[i].id).Some?
    ensures var prev := AutoAssigned(ls, us[..i], names);
      AutoAssigned(ls, us[..i + 1], names) == SetAssignee(prev, FindIndex(prev, us[i].id), names[i % |names|])
  {
    var prev := AutoAssigned(ls, us[..i], names);
    var j :| 0 <= j < |ls| && ls[j] == us[i];
    assert prev[j].id == us[i].id;
    assert us[..i + 1][..i] == us[..i];
    assert us[..i + 1][i] == us[i];
  }

  /** With unique ids, looking up lead p's id in an array with the same ids finds p. */
  lemma FindIndexOfUnique(ls: seq<Lead>, r: seq<Lead>, p: nat)
    requires UniqueIds(ls) && p < |ls| && |r| == |ls|
    requires forall j :: 0 <= j < |ls| ==> r[j].id == ls[j].id
    ensures FindIndex(r, ls[p].id) == Some(p)
  {
  }

  /** One turn of the loop: the unassigned lead of rank k gets agent `k mod m`. */
  lemma AssignedUpToStep(ls: seq<Lead>, prev: seq<Lead>, names: seq<string>, k: nat, p: nat)
    requires |names| > 0 && AssignedUpTo(ls, prev, names, k)
    requires p < |ls| && IsUnassigned(ls[p]) && Rank(ls, p) == k
    ensures AssignedUpTo(ls, prev[p := ls[p].(assignedTo := names[k % |names|])], names, k + 1)
  {
    var r := prev[p := ls[p].(assignedTo := names[k % |names|])];
    forall j | 0 <= j < |ls|
      ensures r[j] == if IsUnassigned(ls[j]) && Rank(ls, j) < k + 1
        then ls[j].(assignedTo := names[Rank(ls, j) % |names|])
        else ls[j]
    {
      if j != p && IsUnassigned(ls[j]) {
        if j < p { RankStrict(ls, j, p); } else { RankStrict(ls, p, j); }
      }
    }
  }

  lemma {:induction false} AutoAssignedPrefix(ls: seq<Lead>, names: seq<string>, i: nat)
    requires |names| > 0 && UniqueIds(ls) && i <= |UnassignedOf(ls)|
    ensures AssignedUpTo(ls, AutoAssigned(ls, UnassignedOf(ls)[..i], names), names, i)
  {
    var us := UnassignedOf(ls);
    if i == 0 {
      assert us[..0] == [];
    } else {
      var k := i - 1;
      AutoAssignedPrefix(ls, names, k);
      assert us[..i][..k] == us[..k];
      assert us[..i][k] == us[k];
      var prev := AutoAssigned(ls, us[..k], names);
      assert Rank(ls, 0) == 0 by { assert ls[..0] == []; }
      var p := PositionOfRank(ls, k, 0);
      UnassignedAtRank(ls, p);
      FindIndexOfUnique(ls, prev, p);
      AssignedUpToStep(ls, prev, names, k, p);
    }
  }

  /**
   * With unique ids, auto-assign gives the unassigned lead of rank k (the
   * k-th unassigned lead in stored order, from 0) agent `k mod m` and
   * leaves every already assigned lead as it was.
   */
  lemma AutoAssignRoundRobin(ls: seq<Lead>, names: seq<string>)
    requires |names| > 0 && UniqueIds(ls)
    ensures AssignedUpTo(ls, AutoAssigned(ls, UnassignedOf(ls), names), names, |UnassignedOf(ls)|)
    ensures forall j :: 0 <= j < |ls| && IsUnassigned(ls[j]) ==>
      Rank(ls, j) < |UnassignedOf(ls)| && UnassignedOf(ls)[Rank(ls, j)] == ls[j]
  {
    var us := UnassignedOf(ls);
    assert us[..|us|] == us;
    AutoAssignedPrefix(ls, names, |us|);
    forall j | 0 <= j < |ls| && IsUnassigned(ls[j])
      ensures Rank(ls, j) < |us| && us[Rank(ls, j)] == ls[j]
    {
      UnassignedAtRank(ls, j);
    }
  }

  /** With unique ids and agents with non-empty names, no lead is left unassigned. */
  lemma AutoAssignLeavesNoneUnassigned(ls: seq<Lead>, names: seq<string>)
    requires |names| > 0 && UniqueIds(ls) && forall a :: 0 <= a < |names| ==> names[a] != ""
    ensures UnassignedOf(AutoAssigned(ls, UnassignedOf(ls), names)) == []
    ensures forall j :: 0 <= j < |ls| && IsAssigned(ls[j]) ==>
      AutoAssigned(ls, UnassignedOf(ls), names)[j] == ls[j]
  {
    AutoAssignRoundRobin(ls, names);
    var r := AutoAssigned(ls, UnassignedOf(ls), names);
    forall j | 0 <= j < |r| ensures !IsUnassigned(r[j]) {
      if IsUnassigned(ls[j]) {
        UnassignedAtRank(ls, j);
      }
    }
    FilterNonePass(r, IsUnassigned);
  }

  /** No agent has an empty name. */
  predicate AllNamed(names: seq<string>) {
    forall a :: 0 <= a < |names| ==> names[a] != ""
  }

  /**
   * What a round of auto-assign leaves behind, from the leads and counters
   * before it (`base`, `start`) to those after it (`r`, `counts`): the
   * round-robin assignment of the unassigned leads, each agent's counter
   * raised by its share, the total raised by the number of leads assigned,
   * the length kept and, with unique ids, no lead left unassigned.
   */
  ghost predicate AutoAssignOutcome(base: seq<Lead>, start: seq<nat>, names: seq<string>, r: seq<Lead>, counts: seq<nat>) {
    && |names| > 0
    && r == AutoAssigned(base, UnassignedOf(base), names)
    && |r| == |base|
    && (UniqueIds(base) ==> UnassignedOf(r) == [])
    && |start| == |names| == |counts|
    && (forall a :: 0 <= a < |names| ==> counts[a] == start[a] + Residue(|UnassignedOf(base)|, |names|, a))
    && Sum(counts) == Sum(start) + |UnassignedOf(base)|
  }

  /** The part of `AutoAssignLeavesNoneUnassigned` the dashboard's state relies on. */
  lemma AutoAssignEmpties(ls: seq<Lead>, names: seq<string>)
    requires |names| > 0 && AllNamed(names)
    ensures UniqueIds(ls) ==> UnassignedOf(AutoAssigned(ls, UnassignedOf(ls), names)) == []
  {
    if UniqueIds(ls) {
      AutoAssignLeavesNoneUnassigned(ls, names);
    }
  }

  /**
   * The loop of `handleAutoAssign` over copies of the state: the i-th
   * lead of `pending` is looked up by id in the working array and given
   * agent `i mod m`, whose counter goes up by one.
   */
  method RoundRobin(base: seq<Lead>, pending: seq<Lead>, names: seq<string>, start: seq<nat>)
    returns (updated: seq<Lead>, counts: seq<nat>)
    requires |names| > 0 && |start| == |names| && pending == UnassignedOf(base)
    ensures updated == AutoAssigned(base, pending, names)
    ensures |counts| == |names|
    ensures forall a :: 0 <= a < |names| ==> counts[a] == start[a] + Residue(|pending|, |names|, a)
    ensures Sum(counts) == Sum(start) + |pending|
  {
    var m := |names|;
    updated := base;
    counts := start;
    var i := 0;
    while i < |pending|
      invariant 0 <= i <= |pending|
      invariant updated == AutoAssigned(base, pending[..i], names)
      invariant |counts| == m
      invariant forall a :: 0 <= a < m ==> counts[a] == start[a] + Residue(i, m, a)
      invariant Sum(counts) == Sum(start) + i
    {
      var lead := pending[i];
      var agentIndex := i % m;
      FilterMembers(base, IsUnassigned, lead);
      AutoAssignedSnoc(base, pending, names, i);
      var leadIndex := FindIndex(updated, lead.id);
      if leadIndex.Some? {
        updated := SetAssignee(updated, leadIndex, names[agentIndex]);
        SumIncrement(counts, agentIndex);
        ResidueStep(counts, start, i, m);
        counts := counts[agentIndex := counts[agentIndex] + 1];
      }
      i := i + 1;
    }
    assert pending[..|pending|] == pending;
  }

  /** Raising the counter of agent i mod m moves every counter from `Residue(i, m, a)` to `Residue(i + 1, m, a)`. */
  lemma ResidueStep(counts: seq<nat>, start: seq<nat>, i: nat, m: nat)
    requires m > 0 && |counts| == m && |start| == m
    requires forall a :: 0 <= a < m ==> counts[a] == start[a] + Residue(i, m, a)
    ensures forall a :: 0 <= a < m ==> counts[i % m := counts[i % m] + 1][a] == start[a] + Residue(i + 1, m, a)
  {
    forall a | 0 <= a < m
      ensures counts[i % m := counts[i % m] + 1][a] == start[a] + Residue(i + 1, m, a)
    {
      assert Residue(i + 1, m, a) == Residue(i, m, a) + (if i % m == a then 1 else 0);
    }
  }

  /**
   * The counting loop of the mount effect: each assigned lead raises the
   * counter of the first agent with that name.
   */
  method CountAssigned(names: seq<string>, start: seq<nat>, split: seq<Lead>) returns (counts: seq<nat>)
    requires Distinct(names) && |start| == |names|
    requires forall i :: 0 <= i < |split| ==> IsAssigned(split[i])
    ensures |counts| == |names|
    ensures forall a :: 0 <= a < |names| ==> counts[a] == start[a] + |AgentLeads(split, names[a])|
  {
    counts := start;
    var i := 0;
    while i < |split|
      invariant 0 <= i <= |split| && |counts| == |names|
      invariant forall a :: 0 <= a < |counts| ==>
        counts[a] == start[a] + |AgentLeads(split[..i], names[a])|
    {
      var lead := split[i];
      assert split[..i + 1] == split[..i] + [lead];
      CountStep(names, split[..i], lead);
      if lead.assignedTo != "" {
        var agentIndex := AgentIndex(names, lead.assignedTo);
        if agentIndex.Some? {
          counts := counts[agentIndex.value := counts[agentIndex.value] + 1];
        }
      }
      i := i + 1;
    }
    assert split[..|split|] == split;
  }

  /** The agent counters after one more lead for `name`: only the first agent of that name gains one. */
  function BumpAgent(counts: seq<nat>, names: seq<string>, name: string): (r: seq<nat>)
    requires |counts| == |names|
    ensures |r| == |counts|
    ensures forall a :: 0 <= a < |names| ==>
      r[a] == counts[a] + (if AgentIndex(names, name) == Some(a) then 1 else 0)
  {
    match AgentIndex(names, name)
    case Some(a) => counts[a := counts[a] + 1]
    case None => counts
  }

  /** One run of `handleAutoAssign`'s loop over the unassigned leads of `base`, with what it leaves behind. */
  method AutoAssignRound(base: seq<Lead>, names: seq<string>, start: seq<nat>)
    returns (updated: seq<Lead>, counts: seq<nat>)
    requires |names| > 0 && AllNamed(names) && |start| == |names|
    ensures AutoAssignOutcome(base, start, names, updated, counts)
  {
    updated, counts := RoundRobin(base, UnassignedOf(base), names, start);
    AutoAssignEmpties(base, names);
  }

  /** The assignment dashboard's state. */
  class AssignmentBoard {
    const store: LeadStore
    const agentNames: seq<string>
    var leads: seq<Lead>
    var unassigned: seq<Lead>
    var assignedLeads: seq<Lead>
    var activeLeads: seq<nat>
    var filterLocation: string
    var filterProperty: string
    var searchTerm: string
    var selectedAgent: Option<string>

    /** The two lists are always the split of `leads`; there is one counter per agent, and every agent has a name. */
    ghost predicate Valid()
      reads this
    {
      && unassigned == UnassignedOf(leads)
      && assignedLeads == AssignedOf(leads)
      && |agentNames| > 0 && |activeLeads| == |agentNames|
      && Distinct(agentNames)
      && AllNamed(agentNames)
    }

    constructor (store: LeadStore)
      ensures Valid() && this.store == store && agentNames == DummyAgents
      ensures leads == [] && activeLeads == [0, 0, 0, 0]
      ensures filterLocation == "all" && filterProperty == "all" && searchTerm == ""
      ensures selectedAgent == None
    {
      this.store := store;
      agentNames := DummyAgents;
      leads, unassigned, assignedLeads := [], [], [];
      activeLeads := [0, 0, 0, 0];
      filterLocation, filterProperty, searchTerm := "all", "all", "";
      selectedAgent := None;
      new;
      assert DummyAgents[0][0] == 'S' && DummyAgents[1][0] == 'M';
      assert DummyAgents[2][0] == 'J' && DummyAgents[3][0] == 'D';
    }

    /**
     * The mount effect: load the stored array, split it, and count each
     * assigned lead for the first agent of that name.
     */
    method Load()
      requires Valid()
      modifies this
      ensures Valid()
      ensures store.present ==> leads == store.leads
      ensures store.present ==> forall a :: 0 <= a < |activeLeads| ==>
        activeLeads[a] == old(activeLeads[a]) + |AgentLeads(assignedLeads, agentNames[a])|
      ensures !store.present ==> unchanged(this)
      ensures filterLocation == old(filterLocation) && filterProperty == old(filterProperty)
      ensures searchTerm == old(searchTerm) && selectedAgent == old(selectedAgent)
    {
      if !store.present {
        return;
      }
      var parsed := store.leads;
      FilterAll(parsed, IsAssigned);
      var counts := CountAssigned(agentNames, activeLeads, AssignedOf(parsed));
      leads, assignedLeads, unassigned, activeLeads := parsed, AssignedOf(parsed), UnassignedOf(parsed), counts;
    }

    /**
     * `handleAutoAssign`: the i-th unassigned lead (from 0) is looked up
     * by id and given agent `i mod m`, whose counter goes up by one; the
     * array is written to storage and split again. Nothing happens when
     * there is no unassigned lead.
     */
    method AutoAssign()
      requires Valid()
      modifies this, store
      ensures Valid()
      ensures old(unassigned) == [] ==> unchanged(this) && unchanged(store)
      ensures old(unassigned) != [] ==>
        && AutoAssignOutcome(old(leads), old(activeLeads), agentNames, leads, activeLeads)
        && store.present && store.leads == leads
      ensures filterLocation == old(filterLocation) && filterProperty == old(filterProperty)
      ensures searchTerm == old(searchTerm) && selectedAgent == old(selectedAgent)
    {
      if |unassigned| > 0 {
        AssignPending();
      }
    }

    /** The body of `handleAutoAssign` once there is an unassigned lead. */
    method AssignPending()
      requires Valid() && unassigned != []
      modifies this, store
      ensures Valid()
      ensures AutoAssignOutcome(old(leads), old(activeLeads), agentNames, leads, activeLeads)
      ensures store.present && store.leads == leads
      ensures filterLocation == old(filterLocation) && filterProperty == old(filterProperty)
      ensures searchTerm == old(searchTerm) && selectedAgent == old(selectedAgent)
    {
      var updated, counts := AutoAssignRound(leads, agentNames, activeLeads);
      store.present, store.leads := true, updated;
      leads, assignedLeads, unassigned, activeLeads := updated, AssignedOf(updated), UnassignedOf(updated), counts;
    }

    /**
     * `handleManualAssign`: the first lead with the id gets the agent and
     * that agent's counter goes up by one; the previous assignee's counter
     * is left as it was. An unknown id changes nothing.
     */
    method ManualAssign(leadId: string, agentName: string)
      requires Valid()
      modifies this, store
      ensures Valid()
      ensures FindIndex(old(leads), leadId).None? ==> unchanged(this) && unchanged(store)
      ensures FindIndex(old(leads), leadId).Some? ==>
        var k := FindIndex(old(leads), leadId).value;
        && leads == old(leads)[k := old(leads)[k].(assignedTo := agentName)]
        && store.present && store.leads == leads
        && activeLeads == BumpAgent(old(activeLeads), agentNames, agentName)
      ensures filterLocation == old(filterLocation) && filterProperty == old(filterProperty)
      ensures searchTerm == old(searchTerm) && selectedAgent == old(selectedAgent)
    {
      var leadIndex := FindIndex(leads, leadId);
      if leadIndex.Some? {
        var k := leadIndex.value;
        var updated := leads[k := leads[k].(assignedTo := agentName)];
        var counts := BumpAgent(activeLeads, agentNames, agentName);
        store.present, store.leads := true, updated;
        leads, assignedLeads, unassigned, activeLeads := updated, AssignedOf(updated), UnassignedOf(updated), counts;
      }
    }

    /** Clicking an agent's card selects it, or clears the selection when it was already selected. */
    method ToggleAgent(name: string)
      modifies this
      ensures selectedAgent == if old(selectedAgent) == Some(name) then None else Some(name)
      ensures leads == old(leads) && unassigned == old(unassigned) && assignedLeads == old(assignedLeads)
      ensures activeLeads == old(activeLeads)
      ensures filterLocation == old(filterLocation) && filterProperty == old(filterProperty)
      ensures searchTerm == old(searchTerm)
    {
      selectedAgent := if selectedAgent == Some(name) then None else Some(name);
    }

    /** `filterUnassignedLeads`: the location, property and search filters applied in turn. */
    method FilterUnassignedLeads() returns (filtered: seq<Lead>)
      ensures filtered == MatchingUnassigned(unassigned, filterLocation, filterProperty, searchTerm)
      ensures IsSubsequence(filtered, unassigned)
      ensures filterLocation == "all" && filterProperty == "all" && searchTerm == "" ==> filtered == unassigned
    {
      var location, property, term := filterLocation, filterProperty, searchTerm;
      filtered := unassigned;
      if location != "all" {
        filtered := Filter(filtered, (l: Lead) => LocationMatches(l, location));
      } else {
        FilterAllPass(unassigned, (l: Lead) => LocationMatches(l, location));
      }
      if property != "all" {
        filtered := Filter(filtered, (l: Lead) => PropertyMatches(l, property));
      } else {
        FilterAllPass(filtered, (l: Lead) => PropertyMatches(l, property));
      }
      FilterCompose(unassigned, (l: Lead) => LocationMatches(l, location), (l: Lead) => PropertyMatches(l, property),
        (l: Lead) => LocationMatches(l, location) && PropertyMatches(l, property));
      if term != "" {
        filtered := Filter(filtered, (l: Lead) => SearchMatches(l, term));
      } else {
        FilterAllPass(filtered, (l: Lead) => SearchMatches(l, term));
      }
      FilterCompose(unassigned, (l: Lead) => LocationMatches(l, location) && PropertyMatches(l, property),
        (l: Lead) => SearchMatches(l, term), (l: Lead) => UnassignedMatches(l, location, property, term));
      FilterIsSubsequence(unassigned, (l: Lead) => UnassignedMatches(l, location, property, term));
      if location == "all" && property == "all" && term == "" {
        FilterAllPass(unassigned, (l: Lead) => UnassignedMatches(l, location, property, term));
      }
    }

    /** `getAgentLeads(agentName)` */
    function GetAgentLeads(agentName: string): (r: seq<Lead>)
      reads this
      requires Valid()
      ensures agentName != "" ==> r == Filter(leads, (l: Lead) => l.assignedTo == agentName)
    {
      if agentName != "" then AgentLeadsOfStore(leads, agentName); AgentLeads(assignedLeads, agentName)
      else AgentLeads(assignedLeads, agentName)
    }
  }

  /** The location filter: the lowercased preference includes the lowercased choice. */
  predicate LocationMatches(l: Lead, location: string) {
    location == "all" || Includes(Lower(l.locationPreference), Lower(location))
  }

  predicate PropertyMatches(l: Lead, property: string) {
    property == "all" || l.propertyType == property
  }

  /**
   * The search on this dashboard: the lowercased term in the lowercased
   * full name or email, or the lowercased term in the raw contact number.
   */
  predicate SearchMatches(l: Lead, term: string) {
    var t := Lower(term);
    term == "" || Includes(Lower(FullName(l)), t) || Includes(Lower(l.email), t) || Includes(l.contactNumber, t)
  }

  predicate UnassignedMatches(l: Lead, location: string, property: string, term: string) {
    LocationMatches(l, location) && PropertyMatches(l, property) && SearchMatches(l, term)
  }

  /** The unassigned leads that pass all three filters, in list order. */
  function MatchingUnassigned(unassigned: seq<Lead>, location: string, property: string, term: string): seq<Lead> {
    Filter(unassigned, (l: Lead) => UnassignedMatches(l, location, property, term))
  }
}
