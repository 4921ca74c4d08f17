/**
 * The lead dashboard: the list of all leads narrowed by three field
 * filters and a search box, the inquiry-purpose and property-type counts,
 * and the "recent" tab showing the six newest leads.
 */
module Dashboard {
  import opened Leads
  import opened Seqs
  import opened Tallies
  import opened Text
  import opened Sorting

  /** The search box: a lead matches when the term occurs in its name, email, location or phone number. */
  predicate SearchMatches(l: Lead, term: string) {
    var t := Lower(term);
    || term == ""
    || Includes(Lower(FullName(l)), t)
    || Includes(Lower(l.email), t)
    || Includes(l.contactNumber, term)
    || Includes(Lower(l.locationPreference), t)
  }

  /** A lead passes the field filters: each one is `all` or equals the lead's field. */
  predicate FieldsMatch(l: Lead, purpose: string, propertyType: string, timeline: string) {
    && (purpose == "all" || l.inquiryPurpose == purpose)
    && (propertyType == "all" || l.propertyType == propertyType)
    && (timeline == "all" || l.timeline == timeline)
  }

  predicate Matches(l: Lead, purpose: string, propertyType: string, timeline: string, term: string) {
    FieldsMatch(l, purpose, propertyType, timeline) && SearchMatches(l, term)
  }

  /**
   * The filter effect: the purpose, property-type and timeline filters,
   * then the search, each applied to the result of the one before.
   */
  method FilterPipeline(leads: seq<Lead>, purpose: string, propertyType: string, timeline: string, term: string)
    returns (result: seq<Lead>)
    ensures result == MatchingLeads(leads, purpose, propertyType, timeline, term)
  {
    var p1 := (l: Lead) => purpose == "all" || l.inquiryPurpose == purpose;
    var p2 := (l: Lead) => propertyType == "all" || l.propertyType == propertyType;
    var p3 := (l: Lead) => timeline == "all" || l.timeline == timeline;
    var p12 := (l: Lead) => p1(l) && p2(l);
    var p123 := (l: Lead) => FieldsMatch(l, purpose, propertyType, timeline);
    var all := (l: Lead) => Matches(l, purpose, propertyType, timeline, term);
    result := leads;
    if purpose != "all" {
      result := Filter(result, p1);
    } else {
      FilterAllPass(leads, p1);
    }
    if propertyType != "all" {
      result := Filter(result, p2);
    } else {
      FilterAllPass(result, p2);
    }
    FilterCompose(leads, p1, p2, p12);
    if timeline != "all" {
      result := Filter(result, p3);
    } else {
      FilterAllPass(result, p3);
    }
    FilterCompose(leads, p12, p3, p123);
    if term != "" {
      result := Filter(result, (l: Lead) => SearchMatches(l, term));
    } else {
      FilterAllPass(result, (l: Lead) => SearchMatches(l, term));
    }
    FilterCompose(leads, p123, (l: Lead) => SearchMatches(l, term), all);
  }

  /** The leads that pass every filter and the search, in their original order. */
  function MatchingLeads(leads: seq<Lead>, purpose: string, propertyType: string, timeline: string, term: string): seq<Lead> {
    Filter(leads, (l: Lead) => Matches(l, purpose, propertyType, timeline, term))
  }

  /**
   * The filtered list is an order-preserving subsequence of the leads; a
   * lead is on it exactly when it is among the leads and passes every
   * filter and the search; with no filter and no search it is all of them.
   */
  lemma MatchingLeadsFacts(leads: seq<Lead>, purpose: string, propertyType: string, timeline: string, term: string)
    ensures IsSubsequence(MatchingLeads(leads, purpose, propertyType, timeline, term), leads)
    ensures forall x :: x in MatchingLeads(leads, purpose, propertyType, timeline, term) <==>
      x in leads && Matches(x, purpose, propertyType, timeline, term)
    ensures purpose == "all" && propertyType == "all" && timeline == "all" && term == "" ==>
      MatchingLeads(leads, purpose, propertyType, timeline, term) == leads
  {
    var all := (l: Lead) => Matches(l, purpose, propertyType, timeline, term);
    FilterIsSubsequence(leads, all);
    if purpose == "all" && propertyType == "all" && timeline == "all" && term == "" {
      FilterAllPass(leads, all);
    }
    forall x ensures x in Filter(leads, all) <==> x in leads && Matches(x, purpose, propertyType, timeline, term) {
      FilterMembers(leads, all, x);
    }
  }

  datatype InquiryStats = InquiryStats(buy: nat, rent: nat, investment: nat, other: nat)

  /** `getInquiryStats`: how many leads have each of the four inquiry purposes. */
  function GetInquiryStats(leads: seq<Lead>): (r: InquiryStats)
    ensures r.buy + r.rent + r.investment + r.other == Count(leads, KeyIn(Purpose, ["buy", "rent", "investment", "other"]))
    ensures r.buy + r.rent + r.investment + r.other <= |leads|
  {
    InquiryStatsSum(leads);
    InquiryStats(Count(leads, HasKey(Purpose, "buy")), Count(leads, HasKey(Purpose, "rent")),
      Count(leads, HasKey(Purpose, "investment")), Count(leads, HasKey(Purpose, "other")))
  }

  lemma InquiryStatsSum(leads: seq<Lead>)
    ensures Count(leads, HasKey(Purpose, "buy")) + Count(leads, HasKey(Purpose, "rent"))
      + Count(leads, HasKey(Purpose, "investment")) + Count(leads, HasKey(Purpose, "other"))
      == Count(leads, KeyIn(Purpose, ["buy", "rent", "investment", "other"]))
  {
    var ks := ["buy", "rent", "investment", "other"];
    SumCountsIsCount(leads, Purpose, ks);
    var k1 := ks[1..];
    var k2 := k1[1..];
    var k3 := k2[1..];
    assert k3[1..] == [];
    assert SumCounts(leads, Purpose, k3) == Count(leads, HasKey(Purpose, "other"));
    assert SumCounts(leads, Purpose, k2) == Count(leads, HasKey(Purpose, "investment")) + SumCounts(leads, Purpose, k3);
    assert SumCounts(leads, Purpose, k1) == Count(leads, HasKey(Purpose, "rent")) + SumCounts(leads, Purpose, k2);
  }

  /** `getPropertyTypeStats`: the count of each property type, in order of first appearance. */
  function GetPropertyTypeStats(leads: seq<Lead>): (r: Tally)
    ensures Total(r) == |leads|
    ensures DistinctKeys(r)
    ensures forall k :: Get(r, k) == Count(leads, HasKey(PropertyType, k))
  {
    TallyByTotal(leads, PropertyType);
    TallyByDistinct(leads, PropertyType);
    forall k ensures Get(TallyBy(leads, PropertyType), k) == Count(leads, HasKey(PropertyType, k)) {
      TallyByGet(leads, PropertyType, k);
    }
    TallyBy(leads, PropertyType)
  }

  /** The recent tab's order: newest `createdAt` first. */
  function Newest(l: Lead): Key {
    Key(-l.createdAt, 0)
  }

  /** The dashboard's state. */
  class DashboardView {
    const store: LeadStore
    var leads: seq<Lead>
    var filteredLeads: seq<Lead>
    var searchTerm: string
    var purpose: string
    var propertyType: string
    var timeline: string

    constructor (store: LeadStore)
      ensures this.store == store && leads == [] && filteredLeads == []
      ensures searchTerm == "" && purpose == "all" && propertyType == "all" && timeline == "all"
    {
      this.store := store;
      leads, filteredLeads := [], [];
      searchTerm := "";
      purpose, propertyType, timeline := "all", "all", "all";
    }

    /** The mount effect: with the storage key set, both lists become the stored array. */
    method Load()
      modifies this
      ensures store.present ==> leads == store.leads && filteredLeads == store.leads
      ensures !store.present ==> leads == old(leads) && filteredLeads == old(filteredLeads)
      ensures searchTerm == old(searchTerm) && purpose == old(purpose)
      ensures propertyType == old(propertyType) && timeline == old(timeline)
    {
      if store.present {
        leads := store.leads;
        filteredLeads := store.leads;
      }
    }

    /** The filter effect, run whenever the leads, the filters or the search term change. */
    method ApplyFilters()
      modifies this
      ensures filteredLeads == MatchingLeads(leads, purpose, propertyType, timeline, searchTerm)
      ensures leads == old(leads) && searchTerm == old(searchTerm) && purpose == old(purpose)
      ensures propertyType == old(propertyType) && timeline == old(timeline)
    {
      filteredLeads := FilterPipeline(leads, purpose, propertyType, timeline, searchTerm);
    }

    /** The clear-filters button: every filter back to `all` and an empty search. */
    method ClearFilters()
      modifies this
      ensures purpose == "all" && propertyType == "all" && timeline == "all" && searchTerm == ""
      ensures leads == old(leads) && filteredLeads == old(filteredLeads)
    {
      purpose, propertyType, timeline := "all", "all", "all";
      searchTerm := "";
    }

    /**
     * The recent tab: `leads` is sorted newest first in place, and its
     * first six entries are shown.
     */
    method Recent() returns (shown: seq<Lead>)
      modifies this
      ensures leads == SortBy(old(leads), Newest)
      ensures multiset(leads) == multiset(old(leads))
      ensures |shown| == if |leads| < 6 then |leads| else 6
      ensures shown == leads[..|shown|]
      ensures forall i, j :: 0 <= i < j < |leads| ==> leads[i].createdAt >= leads[j].createdAt
      ensures forall i, j :: 0 <= i < |shown| <= j < |leads| ==> shown[i].createdAt >= leads[j].createdAt
      ensures filteredLeads == old(filteredLeads) && searchTerm == old(searchTerm)
      ensures purpose == old(purpose) && propertyType == old(propertyType) && timeline == old(timeline)
    {
      leads := SortBy(leads, Newest);
      SortBySorted(old(leads), Newest);
      forall i, j | 0 <= i < j < |leads| ensures leads[i].createdAt >= leads[j].createdAt {
        assert KeyLe(Newest(leads[i]), Newest(leads[j]));
      }
      shown := if |leads| < 6 then leads else leads[..6];
    }
  }
}
