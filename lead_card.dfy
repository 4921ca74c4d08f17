/**
 * The lead card's display rules: the purchase-timeline label, the badge
 * colour for the inquiry purpose and the capitalised purpose text.
 */
module LeadCard {
  import opened Text

  /** The timeline codes the form offers, and the label each one shows. */
  const TimelineCodes: seq<string> := ["immediate", "1_3_months", "3_6_months", "6_plus_months", "not_sure"]
  const TimelineLabels: seq<string> := ["Immediate", "1-3 Months", "3-6 Months", "6+ Months", "Not Sure"]

  /** `getTimelineText`: a fixed label for each code, otherwise the input with every `_` turned into a space. */
  function TimelineText(timeline: string): (r: string)
    ensures forall i :: 0 <= i < |TimelineCodes| && timeline == TimelineCodes[i] ==> r == TimelineLabels[i]
    ensures timeline !in TimelineCodes ==>
      && |r| == |timeline|
      && '_' !in r
      && forall i :: 0 <= i < |timeline| && timeline[i] != '_' ==> r[i] == timeline[i]
    ensures timeline !in TimelineCodes && '_' !in timeline ==> r == timeline
    ensures timeline !in TimelineCodes ==> r == SpaceUnderscores(timeline)
  {
    if timeline == "immediate" then "Immediate"
    else if timeline == "1_3_months" then "1-3 Months"
    else if timeline == "3_6_months" then "3-6 Months"
    else if timeline == "6_plus_months" then "6+ Months"
    else if timeline == "not_sure" then "Not Sure"
    else SpaceUnderscores(timeline)
  }

  /** No label shows an underscore. */
  lemma TimelineTextClean(timeline: string)
    ensures '_' !in TimelineText(timeline)
  {
    if timeline in TimelineCodes {
      forall i | 0 <= i < |TimelineLabels| ensures '_' !in TimelineLabels[i] {
      }
    }
  }

  /** The five codes show five different labels. */
  lemma TimelineLabelsDistinct()
    ensures forall i, j :: 0 <= i < j < |TimelineLabels| ==> TimelineLabels[i] != TimelineLabels[j]
  {
    assert TimelineLabels[0][0] == 'I' && TimelineLabels[1][0] == '1' && TimelineLabels[2][0] == '3';
    assert TimelineLabels[3][0] == '6' && TimelineLabels[4][0] == 'N';
  }

  /** The badge colours: blue, green, purple and the neutral grey. */
  datatype Badge = Blue | Green | Purple | Gray

  /** The class string each colour stands for. */
  function BadgeClass(b: Badge): string {
    match b
    case Blue => "bg-blue-100 text-blue-800 dark:bg-blue-900 dark:text-blue-300"
    case Green => "bg-green-100 text-green-800 dark:bg-green-900 dark:text-green-300"
    case Purple => "bg-purple-100 text-purple-800 dark:bg-purple-900 dark:text-purple-300"
    case Gray => "bg-gray-100 text-gray-800 dark:bg-gray-700 dark:text-gray-300"
  }

  /** `getInquiryColor`: a colour for each of the three named purposes, grey for anything else. */
  function InquiryColor(purpose: string): (r: Badge)
    ensures r == Gray <==> purpose != "buy" && purpose != "rent" && purpose != "investment"
    ensures r == Blue <==> purpose == "buy"
    ensures r == Green <==> purpose == "rent"
    ensures r == Purple <==> purpose == "investment"
  {
    if purpose == "buy" then Blue
    else if purpose == "rent" then Green
    else if purpose == "investment" then Purple
    else Gray
  }

  /** The purpose badge: the first character upper-cased, the rest as stored. */
  lemma PurposeBadge()
    ensures CapitalizeFirst("buy") == "Buy" && CapitalizeFirst("rent") == "Rent"
    ensures CapitalizeFirst("investment") == "Investment" && CapitalizeFirst("other") == "Other"
  {
    CapitalizedIs("buy", 'B', "uy");
    CapitalizedIs("rent", 'R', "ent");
    CapitalizedIs("investment", 'I', "nvestment");
    CapitalizedIs("other", 'O', "ther");
  }

  lemma CapitalizedIs(s: string, c: char, rest: string)
    requires s != [] && UpperChar(s[0]) == c && s[1..] == rest
    ensures CapitalizeFirst(s) == [c] + rest
  {
  }
}
