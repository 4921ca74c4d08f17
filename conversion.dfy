/**
 * The conversion analytics page: per-stage counters, the share of closed
 * leads, and three breakdowns (by lead source, inquiry purpose and property
 * type) listed from the largest count down, with the top lead source.
 *
 * The stage counters live in one object whose keys are the six stages and
 * `total`; a lead's stage (default `new`) is counted only when it is one of
 * those keys, so a lead whose stage is the string `total` raises the total.
 */
module Conversion {
  import opened Common
  import opened Leads
  import opened Seqs
  import opened Tallies
  import opened Text
  import opened Sorting

  /** The keys of the stage-counter object, `total` first. */
  const StatKeys: seq<string> := ["total", "new", "contacted", "qualified", "proposal", "negotiation", "closed"]

  /** The same keys as a set, the domain of the counter object. */
  const StatKeySet: set<string> := {"total", "new", "contacted", "qualified", "proposal", "negotiation", "closed"}

  /** The six stages the page shows, which are the counter keys after `total`. */
  const ShownStages: seq<string> := ["new", "contacted", "qualified", "proposal", "negotiation", "closed"]

  /** `lead.stage || 'new'` */
  function StageOf(l: Lead): string {
    if l.stage == "" then "new" else l.stage
  }

  /** The counter object before the loop: `total` is the number of leads, every stage 0. */
  function InitialStats(n: nat): (r: map<string, nat>)
    ensures r.Keys == StatKeySet
    ensures r["total"] == n && forall i :: 1 <= i < |StatKeys| ==> r[StatKeys[i]] == 0
  {
    map["total" := n, "new" := 0, "contacted" := 0, "qualified" := 0, "proposal" := 0,
        "negotiation" := 0, "closed" := 0]
  }

  /** What the counters hold once the first `i` leads have been seen. */
  ghost predicate StatsAt(stats: map<string, nat>, ls: seq<Lead>, i: nat)
    requires i <= |ls|
  {
    && stats.Keys == StatKeySet
    && forall k :: k in stats ==>
      stats[k] == (if k == "total" then |ls| else 0) + Count(ls[..i], HasKey(StageOf, k))
  }

  /** What the counters hold once every lead has been seen. */
  ghost predicate StatsOf(stats: map<string, nat>, ls: seq<Lead>) {
    && stats.Keys == StatKeySet
    && forall k :: k in stats ==>
      stats[k] == (if k == "total" then |ls| else 0) + Count(ls, HasKey(StageOf, k))
  }

  /** `if (stage in stats) stats[stage]++` */
  function CountStage(stats: map<string, nat>, stage: string): (r: map<string, nat>)
    ensures r.Keys == stats.Keys
    ensures forall k :: k in stats ==> r[k] == stats[k] + (if k == stage then 1 else 0)
  {
    if stage in stats then stats[stage := stats[stage] + 1] else stats
  }

  lemma StatsStep(stats: map<string, nat>, ls: seq<Lead>, i: nat)
    requires i < |ls| && StatsAt(stats, ls, i)
    ensures StatsAt(CountStage(stats, StageOf(ls[i])), ls, i + 1)
  {
    var r := CountStage(stats, StageOf(ls[i]));
    forall k | k in r
      ensures r[k] == (if k == "total" then |ls| else 0) + Count(ls[..i + 1], HasKey(StageOf, k))
    {
      CountStageSnoc(ls, i, k);
    }
  }

  /** One more lead raises the count of its own stage by one and no other. */
  lemma CountStageSnoc(ls: seq<Lead>, i: nat, k: string)
    requires i < |ls|
    ensures Count(ls[..i + 1], HasKey(StageOf, k)) ==
      Count(ls[..i], HasKey(StageOf, k)) + (if StageOf(ls[i]) == k then 1 else 0)
  {
    assert ls[..i + 1][..i] == ls[..i] && ls[..i + 1][i] == ls[i];
    FilterSnoc(ls[..i + 1], HasKey(StageOf, k));
    HasKeyApply(StageOf, k, ls[i]);
  }

  lemma StatsStart(ls: seq<Lead>)
    ensures StatsAt(InitialStats(|ls|), ls, 0)
  {
    var r := InitialStats(|ls|);
    assert ls[..0] == [];
    forall k | k in r
      ensures r[k] == (if k == "total" then |ls| else 0) + Count(ls[..0], HasKey(StageOf, k))
    {
      assert k in StatKeys;
    }
  }

  /**
   * What the mount effect derives from the leads: the stage counters and
   * the counts by lead source, inquiry purpose and property type.
   */
  ghost predicate CompiledFrom(ls: seq<Lead>, stats: map<string, nat>, bySource: Tally, byPurpose: Tally, byProperty: Tally) {
    && StatsOf(stats, ls)
    && bySource == TallyBy(ls, Source)
    && byPurpose == TallyBy(ls, Purpose)
    && byProperty == TallyBy(ls, PropertyType)
  }

  /**
   * The `forEach` of the page's mount effect: each lead raises the counter
   * of its stage, when that is a counter key, and its entry in each of the
   * three breakdowns.
   */
  method Compile(ls: seq<Lead>) returns (stats: map<string, nat>, bySource: Tally, byPurpose: Tally, byProperty: Tally)
    ensures CompiledFrom(ls, stats, bySource, byPurpose, byProperty)
  {
    stats := InitialStats(|ls|);
    StatsStart(ls);
    bySource, byPurpose, byProperty := [], [], [];
    var i := 0;
    while i < |ls|
      invariant 0 <= i <= |ls|
      invariant StatsAt(stats, ls, i)
      invariant bySource == TallyBy(ls[..i], Source)
      invariant byPurpose == TallyBy(ls[..i], Purpose)
      invariant byProperty == TallyBy(ls[..i], PropertyType)
    {
      var lead := ls[i];
      StatsStep(stats, ls, i);
      TallyBySnoc(ls, i, Source);
      TallyBySnoc(ls, i, Purpose);
      TallyBySnoc(ls, i, PropertyType);
      stats := CountStage(stats, StageOf(lead));
      bySource := Bump(bySource, lead.leadSource);
      byPurpose := Bump(byPurpose, lead.inquiryPurpose);
      byProperty := Bump(byProperty, lead.propertyType);
      i := i + 1;
    }
    assert ls[..|ls|] == ls;
  }

  /**
   * `total` is the number of leads plus the number of leads whose stage is
   * the string `total`; it equals the number of leads exactly when no lead
   * has that stage.
   */
  lemma TotalCounter(stats: map<string, nat>, ls: seq<Lead>)
    requires StatsOf(stats, ls)
    ensures stats["total"] == |ls| + Count(ls, HasKey(Stage, "total"))
    ensures stats["total"] == |ls| <==> forall i :: 0 <= i < |ls| ==> ls[i].stage != "total"
  {
    assert "total" in stats;
    forall i | 0 <= i < |ls| ensures HasKey(StageOf, "total")(ls[i]) == HasKey(Stage, "total")(ls[i]) {
      HasKeyApply(StageOf, "total", ls[i]);
      HasKeyApply(Stage, "total", ls[i]);
    }
    FilterSame(ls, HasKey(StageOf, "total"), HasKey(Stage, "total"));
    if exists i :: 0 <= i < |ls| && ls[i].stage == "total" {
      var i :| 0 <= i < |ls| && ls[i].stage == "total";
      HasKeyApply(Stage, "total", ls[i]);
      FilterMembers(ls, HasKey(Stage, "total"), ls[i]);
    } else {
      forall i | 0 <= i < |ls| ensures !HasKey(Stage, "total")(ls[i]) {
        HasKeyApply(Stage, "total", ls[i]);
      }
      FilterNonePass(ls, HasKey(Stage, "total"));
    }
  }

  /** The number of leads in each of the six shown stages, added up. */
  function ShownStageTotal(ls: seq<Lead>): nat {
    Count(ls, HasKey(StageOf, "new")) + Count(ls, HasKey(StageOf, "contacted"))
      + Count(ls, HasKey(StageOf, "qualified")) + Count(ls, HasKey(StageOf, "proposal"))
      + Count(ls, HasKey(StageOf, "negotiation")) + Count(ls, HasKey(StageOf, "closed"))
  }

  lemma ShownStageTotalIsCount(ls: seq<Lead>)
    ensures ShownStageTotal(ls) == Count(ls, KeyIn(StageOf, ShownStages))
  {
    var ks := ShownStages;
    SumCountsIsCount(ls, StageOf, ks);
    var k1 := ks[1..];
    var k2 := k1[1..];
    var k3 := k2[1..];
    var k4 := k3[1..];
    var k5 := k4[1..];
    assert k5[1..] == [];
    assert SumCounts(ls, StageOf, k5) == Count(ls, HasKey(StageOf, "closed"));
    assert SumCounts(ls, StageOf, k4) == Count(ls, HasKey(StageOf, "negotiation")) + SumCounts(ls, StageOf, k5);
    assert SumCounts(ls, StageOf, k3) == Count(ls, HasKey(StageOf, "proposal")) + SumCounts(ls, StageOf, k4);
    assert SumCounts(ls, StageOf, k2) == Count(ls, HasKey(StageOf, "qualified")) + SumCounts(ls, StageOf, k3);
    assert SumCounts(ls, StageOf, k1) == Count(ls, HasKey(StageOf, "contacted")) + SumCounts(ls, StageOf, k2);
  }

  /**
   * The six stage counters add up to the number of leads whose stage is
   * one of them (a missing stage counts as `new`), and so never to more
   * than the total.
   */
  lemma StageCountersSum(stats: map<string, nat>, ls: seq<Lead>)
    requires StatsOf(stats, ls)
    ensures stats["new"] + stats["contacted"] + stats["qualified"] + stats["proposal"]
      + stats["negotiation"] + stats["closed"] == Count(ls, KeyIn(StageOf, ShownStages))
    ensures stats["new"] + stats["contacted"] + stats["qualified"] + stats["proposal"]
      + stats["negotiation"] + stats["closed"] <= |ls| <= stats["total"]
  {
    ShownStageTotalIsCount(ls);
    assert "new" in stats && "contacted" in stats && "qualified" in stats;
    assert "proposal" in stats && "negotiation" in stats && "closed" in stats && "total" in stats;
    assert stats["new"] + stats["contacted"] + stats["qualified"] + stats["proposal"]
      + stats["negotiation"] + stats["closed"] == ShownStageTotal(ls);
  }

  /** `getStagePercentage`: the counter as a rounded share of `total`, 0 when `total` is 0. */
  function StagePercentage(stats: map<string, nat>, stage: string): (r: nat)
    requires stage in stats && "total" in stats
    ensures stats["total"] == 0 ==> r == 0
    ensures stats[stage] <= stats["total"] ==> r <= 100
    ensures stats[stage] == stats["total"] > 0 ==> r == 100
  {
    if stats["total"] > 0 then RoundPercent(stats[stage], stats["total"]) else 0
  }

  /** With a positive `total`, the percentage is 100 * count / total rounded to the nearest integer. */
  lemma StagePercentageNearest(stats: map<string, nat>, stage: string)
    requires stage in stats && "total" in stats && stats["total"] > 0
    ensures var r := StagePercentage(stats, stage);
      (2 * r - 1) * stats["total"] <= 200 * stats[stage] < (2 * r + 1) * stats["total"]
  {
    RoundPercentNearest(stats[stage], stats["total"]);
  }

  /** On the compiled counters every stage's percentage is at most 100. */
  lemma StagePercentageBounded(stats: map<string, nat>, ls: seq<Lead>, stage: string)
    requires StatsOf(stats, ls) && stage in stats
    ensures StagePercentage(stats, stage) <= 100
  {
    assert "total" in stats;
    assert stats[stage] <= stats["total"];
  }

  /**
   * `Math.round(closed / leads.length * 100)`, where a lead counts as
   * closed only when its stage is exactly `closed`; 0 without leads.
   */
  function ConversionRate(ls: seq<Lead>): (r: nat)
    requires |ls| > 0
    ensures r <= 100
  {
    RoundPercent(Count(ls, HasKey(Stage, "closed")), |ls|)
  }

  /** The rate is 100 * closed / n rounded to the nearest integer, halves up. */
  lemma ConversionRateNearest(ls: seq<Lead>)
    requires |ls| > 0
    ensures var r := ConversionRate(ls);
      (2 * r - 1) * |ls| <= 200 * Count(ls, HasKey(Stage, "closed")) < (2 * r + 1) * |ls|
  {
    RoundPercentNearest(Count(ls, HasKey(Stage, "closed")), |ls|);
  }

  /** The rate agrees with the `closed` counter: a missing stage defaults to `new`, never to `closed`. */
  lemma ConversionRateMatchesCounter(stats: map<string, nat>, ls: seq<Lead>)
    requires StatsOf(stats, ls) && |ls| > 0
    ensures ConversionRate(ls) == RoundPercent(stats["closed"], |ls|)
  {
    assert "closed" in stats;
    forall i | 0 <= i < |ls| ensures HasKey(StageOf, "closed")(ls[i]) == HasKey(Stage, "closed")(ls[i]) {
      HasKeyApply(StageOf, "closed", ls[i]);
      HasKeyApply(Stage, "closed", ls[i]);
    }
    FilterSame(ls, HasKey(StageOf, "closed"), HasKey(Stage, "closed"));
  }

  datatype TopSource = TopSource(source: string, count: nat, percentage: nat)

  /** Entry i has a count that every earlier entry falls short of. */
  predicate IsTop(t: Tally, i: nat)
    requires i < |t|
  {
    forall j :: 0 <= j < i ==> t[j].count < t[i].count
  }

  /**
   * The summary `getTopSource` returns: no entry counts more; a positive
   * count is reached by the first entry that reaches it, whose name is
   * shown with underscores as spaces; a zero count has no name; and the
   * percentage is the count over the total, or 0 with no total.
   */
  predicate IsTopSource(bySource: Tally, total: nat, r: TopSource) {
    && (forall i :: 0 <= i < |bySource| ==> bySource[i].count <= r.count)
    && (r.count == 0 ==> r.source == "")
    && (r.count > 0 ==>
      exists i :: 0 <= i < |bySource| && IsTop(bySource, i) && bySource[i].count == r.count
        && r.source == SpaceUnderscores(bySource[i].key))
    && r.percentage == if total > 0 then RoundPercent(r.count, total) else 0
  }

  /**
   * `getTopSource`: the first entry with the largest count wins (a later
   * entry must be strictly larger to replace it); its name is shown with
   * underscores as spaces. With no entry, or only zero counts, the source
   * is empty and the count 0.
   */
  method GetTopSource(bySource: Tally, total: nat) returns (r: TopSource)
    ensures IsTopSource(bySource, total, r)
  {
    var topSource := "";
    var maxCount := 0;
    var top := 0;
    var i := 0;
    while i < |bySource|
      invariant 0 <= i <= |bySource| && top <= i
      invariant forall j :: 0 <= j < i ==> bySource[j].count <= maxCount
      invariant maxCount == 0 ==> topSource == ""
      invariant maxCount > 0 ==> top < i && bySource[top].count == maxCount && topSource == bySource[top].key
      invariant maxCount > 0 ==> forall j :: 0 <= j < top ==> bySource[j].count < maxCount
    {
      if bySource[i].count > maxCount {
        maxCount := bySource[i].count;
        topSource := bySource[i].key;
        top := i;
      }
      i := i + 1;
    }
    if maxCount > 0 {
      assert IsTop(bySource, top);
    }
    r := TopSource(SpaceUnderscores(topSource), maxCount,
      if total > 0 then RoundPercent(maxCount, total) else 0);
  }

  /** The summary is determined by the tally and the total: two summaries that both qualify are equal. */
  lemma TopSourceUnique(bySource: Tally, total: nat, r1: TopSource, r2: TopSource)
    requires IsTopSource(bySource, total, r1) && IsTopSource(bySource, total, r2)
    ensures r1 == r2
  {
    TopSourceCountUnique(bySource, total, r1, r2);
    if r1.count > 0 {
      var i1 :| 0 <= i1 < |bySource| && IsTop(bySource, i1) && bySource[i1].count == r1.count
        && r1.source == SpaceUnderscores(bySource[i1].key);
      var i2 :| 0 <= i2 < |bySource| && IsTop(bySource, i2) && bySource[i2].count == r2.count
        && r2.source == SpaceUnderscores(bySource[i2].key);
      TopIndexUnique(bySource, i1, i2);
    }
  }

  /** Only one entry is the first to reach a given count. */
  lemma TopIndexUnique(t: Tally, i: nat, j: nat)
    requires i < |t| && j < |t| && IsTop(t, i) && IsTop(t, j) && t[i].count == t[j].count
    ensures i == j
  {
  }

  /** Two qualifying summaries agree on the count. */
  lemma TopSourceCountUnique(bySource: Tally, total: nat, r1: TopSource, r2: TopSource)
    requires IsTopSource(bySource, total, r1) && IsTopSource(bySource, total, r2)
    ensures r1.count == r2.count
  {
    if r1.count > 0 {
      var i1 :| 0 <= i1 < |bySource| && bySource[i1].count == r1.count;
      assert r1.count <= r2.count;
    }
    if r2.count > 0 {
      var i2 :| 0 <= i2 < |bySource| && bySource[i2].count == r2.count;
      assert r2.count <= r1.count;
    }
  }

  /** The breakdown order: larger counts first. */
  function ByCountDesc(e: Entry): Key {
    Key(-(e.count as int), 0)
  }

  /** `Object.entries(map).sort(([, a], [, b]) => b - a)` */
  function Breakdown(t: Tally): Tally {
    SortBy(t, ByCountDesc)
  }

  /** The breakdown lists the same entries, from the largest count down. */
  lemma BreakdownOrdered(t: Tally)
    ensures multiset(Breakdown(t)) == multiset(t)
    ensures forall i, j :: 0 <= i < j < |Breakdown(t)| ==> Breakdown(t)[i].count >= Breakdown(t)[j].count
  {
    SortBySorted(t, ByCountDesc);
    var r := Breakdown(t);
    forall i, j | 0 <= i < j < |r| ensures r[i].count >= r[j].count {
      assert KeyLe(ByCountDesc(r[i]), ByCountDesc(r[j]));
    }
  }

  /**
   * A breakdown row's percentage divides by `total`, which the page does
   * without a guard: it is positive whenever a breakdown has a row.
   */
  lemma BreakdownTotalPositive(stats: map<string, nat>, ls: seq<Lead>, key: Lead -> string)
    requires StatsOf(stats, ls) && |TallyBy(ls, key)| > 0
    ensures stats["total"] > 0
  {
    TotalCounter(stats, ls);
  }

  /** The rate update of the mount effect: set only when there is at least one lead. */
  method RateOrKeep(ls: seq<Lead>, current: nat) returns (rate: nat)
    ensures rate == if |ls| > 0 then ConversionRate(ls) else current
  {
    rate := current;
    if |ls| > 0 {
      rate := ConversionRate(ls);
    }
  }

  /** The conversion page's state. */
  class ConversionDashboard {
    const store: LeadStore
    var leads: seq<Lead>
    var stats: map<string, nat>
    var conversionRate: nat
    var leadsBySource: Tally
    var leadsByPurpose: Tally
    var leadsByProperty: Tally

    constructor (store: LeadStore)
      ensures this.store == store && leads == [] && stats == InitialStats(0) && conversionRate == 0
      ensures leadsBySource == [] && leadsByPurpose == [] && leadsByProperty == []
    {
      this.store := store;
      leads := [];
      stats := InitialStats(0);
      conversionRate := 0;
      leadsBySource, leadsByPurpose, leadsByProperty := [], [], [];
    }

    /**
     * The mount effect. Without the storage key nothing changes; with it
     * the counters and breakdowns are compiled, and the rate is set only
     * when there is at least one lead.
     */
    method Load()
      modifies this
      ensures !store.present ==> unchanged(this)
      ensures store.present ==> leads == store.leads
      ensures store.present ==> CompiledFrom(leads, stats, leadsBySource, leadsByPurpose, leadsByProperty)
      ensures store.present ==>
        conversionRate == if |leads| > 0 then ConversionRate(leads) else old(conversionRate)
    {
      if store.present {
        var parsed := store.leads;
        var compiled, bySource, byPurpose, byProperty := Compile(parsed);
        var rate := RateOrKeep(parsed, conversionRate);
        leads, stats, conversionRate := parsed, compiled, rate;
        leadsBySource, leadsByPurpose, leadsByProperty := bySource, byPurpose, byProperty;
      }
    }

    /** The top-source card: `getTopSource` over the source tally and the `total` counter. */
    method TopSourceSummary() returns (r: TopSource)
      requires "total" in stats
      ensures IsTopSource(leadsBySource, stats["total"], r)
    {
      r := GetTopSource(leadsBySource, stats["total"]);
    }
  }
}
