/**
 * The four-step lead capture form: the schema its values must satisfy,
 * which fields each step validates, the step counter, the amenity
 * checkboxes and the submit that appends the new lead to the store.
 */
module LeadForm {
  import opened Common
  import opened Leads
  import opened Seqs

  /** The form's values, as the schema types them. */
  datatype FormValues = FormValues(
    firstName: string,
    lastName: string,
    contactNumber: string,
    email: string,
    preferredContactMethod: string,
    propertyType: string,
    budgetRange: seq<int>,
    locationPreference: string,
    bedrooms: string,
    bathrooms: string,
    amenities: seq<string>,
    leadSource: string,
    inquiryPurpose: string,
    timeline: string,
    preferredContactTime: string,
    notes: string)

  /** The schema's field names. */
  datatype Field =
    | FirstName | LastName | ContactNumber | Email | PreferredContactMethod
    | PropertyType | BudgetRange | LocationPreference | Bedrooms | Bathrooms | Amenities
    | LeadSource | InquiryPurpose | Timeline | PreferredContactTime | Notes

  const ContactMethods: seq<string> := ["email", "phone", "sms", "whatsapp"]
  const PropertyTypes: seq<string> := ["apartment", "villa", "plot", "penthouse", "commercial", "other"]
  const LeadSources: seq<string> :=
    ["website", "social_media", "real_estate_portal", "walk_in", "call_center", "email_marketing", "chatbot", "referral", "other"]
  const Purposes: seq<string> := ["buy", "rent", "investment", "other"]
  const Timelines: seq<string> := ["immediate", "1_3_months", "3_6_months", "6_plus_months", "not_sure"]
  const ContactTimes: seq<string> := ["morning", "afternoon", "evening", "anytime"]

  /**
   * The schema's rule for one field. The email-address check belongs to
   * the validation library and is passed in as `emailOk`; bedrooms,
   * bathrooms, amenities and notes accept any value of their type.
   */
  predicate FieldValid(v: FormValues, f: Field, emailOk: string -> bool) {
    match f
    case FirstName => |v.firstName| >= 2
    case LastName => |v.lastName| >= 2
    case ContactNumber => |v.contactNumber| >= 10
    case Email => emailOk(v.email)
    case PreferredContactMethod => v.preferredContactMethod in ContactMethods
    case PropertyType => v.propertyType in PropertyTypes
    case BudgetRange => |v.budgetRange| == 2
    case LocationPreference => |v.locationPreference| >= 1
    case Bedrooms => true
    case Bathrooms => true
    case Amenities => true
    case LeadSource => v.leadSource in LeadSources
    case InquiryPurpose => v.inquiryPurpose in Purposes
    case Timeline => v.timeline in Timelines
    case PreferredContactTime => v.preferredContactTime in ContactTimes
    case Notes => true
  }

  /** The whole schema holds. */
  predicate SchemaValid(v: FormValues, emailOk: string -> bool) {
    forall f :: FieldValid(v, f, emailOk)
  }

  /** `form.trigger(fields)`: every listed field passes; an empty list always does. */
  predicate Validates(v: FormValues, fields: seq<Field>, emailOk: string -> bool) {
    forall i :: 0 <= i < |fields| ==> FieldValid(v, fields[i], emailOk)
  }

  /** The fields `nextStep` validates on each step. */
  function StepFields(step: int): (r: seq<Field>)
    ensures step == 1 ==> |r| == 5
    ensures step == 2 ==> |r| == 6
    ensures step != 1 && step != 2 ==> r == []
  {
    if step == 1 then [FirstName, LastName, ContactNumber, Email, PreferredContactMethod]
    else if step == 2 then [PropertyType, BudgetRange, LocationPreference, Bedrooms, Bathrooms, Amenities]
    else []
  }

  /** The step lists do not overlap, and no step looks at the additional details. */
  lemma StepFieldsDisjoint()
    ensures forall f :: f in StepFields(1) ==> f !in StepFields(2)
    ensures forall f :: f in StepFields(1) + StepFields(2) ==>
      f != LeadSource && f != InquiryPurpose && f != Timeline && f != PreferredContactTime && f != Notes
  {
  }

  /** Values that satisfy the schema pass every step's validation; step 3 passes whatever the values. */
  lemma SchemaValidAdvances(v: FormValues, emailOk: string -> bool, step: int)
    ensures SchemaValid(v, emailOk) ==> Validates(v, StepFields(step), emailOk)
    ensures step != 1 && step != 2 ==> Validates(v, StepFields(step), emailOk)
  {
  }

  /** Step 1 passes exactly when the five personal fields satisfy their rules. */
  lemma StepOneRule(v: FormValues, emailOk: string -> bool)
    ensures Validates(v, StepFields(1), emailOk) <==>
      |v.firstName| >= 2 && |v.lastName| >= 2 && |v.contactNumber| >= 10 && emailOk(v.email)
      && v.preferredContactMethod in ContactMethods
  {
    var fs := StepFields(1);
    if Validates(v, fs, emailOk) {
      assert FieldValid(v, fs[0], emailOk) && FieldValid(v, fs[1], emailOk) && FieldValid(v, fs[2], emailOk);
      assert FieldValid(v, fs[3], emailOk) && FieldValid(v, fs[4], emailOk);
    }
  }

  /** Step 2 passes exactly when the property type, budget pair and location satisfy their rules. */
  lemma StepTwoRule(v: FormValues, emailOk: string -> bool)
    ensures Validates(v, StepFields(2), emailOk) <==>
      v.propertyType in PropertyTypes && |v.budgetRange| == 2 && |v.locationPreference| >= 1
  {
    var fs := StepFields(2);
    if Validates(v, fs, emailOk) {
      assert FieldValid(v, fs[0], emailOk) && FieldValid(v, fs[1], emailOk) && FieldValid(v, fs[2], emailOk);
    }
  }

  /** The form's default values. */
  const DefaultValues: FormValues := FormValues(
    "", "", "", "", "email", "apartment", [500000, 1500000], "", "2", "2", [],
    "website", "buy", "not_sure", "anytime", "")

  /** The defaults fill every choice with an allowed value but leave the names empty, so step 1 cannot pass on them. */
  lemma DefaultsNeedNames(emailOk: string -> bool)
    ensures !Validates(DefaultValues, StepFields(1), emailOk)
    ensures FieldValid(DefaultValues, PreferredContactMethod, emailOk) && FieldValid(DefaultValues, PropertyType, emailOk)
    ensures FieldValid(DefaultValues, BudgetRange, emailOk) && FieldValid(DefaultValues, LeadSource, emailOk)
    ensures FieldValid(DefaultValues, InquiryPurpose, emailOk) && FieldValid(DefaultValues, Timeline, emailOk)
    ensures FieldValid(DefaultValues, PreferredContactTime, emailOk)
  {
    assert StepFields(1)[0] == FirstName;
  }

  /** The test `value => value !== id`. */
  function NotId(id: string): string -> bool {
    (x: string) => x != id
  }

  /** An amenity checkbox: checking appends its id, unchecking drops every occurrence of it. */
  function ToggleAmenity(amenities: seq<string>, id: string, checked: bool): (r: seq<string>)
    ensures checked ==> |r| == |amenities| + 1 && r[..|amenities|] == amenities && r[|amenities|] == id
    ensures !checked ==> id !in r && IsSubsequence(r, amenities)
    ensures !checked ==> forall x :: x != id ==> (x in r <==> x in amenities)
  {
    if checked then
      assert (amenities + [id])[..|amenities|] == amenities;
      amenities + [id]
    else
      FilterIsSubsequence(amenities, NotId(id));
      var r := Filter(amenities, NotId(id));
      FilterMembers(amenities, NotId(id), id);
      assert forall x :: x != id ==> (x in r <==> x in amenities) by {
        forall x | x != id ensures x in r <==> x in amenities {
          FilterMembers(amenities, NotId(id), x);
        }
      }
      r
  }

  /** Checking then unchecking an amenity that was not selected restores the selection. */
  lemma ToggleRoundTrip(amenities: seq<string>, id: string)
    requires id !in amenities
    ensures ToggleAmenity(ToggleAmenity(amenities, id, true), id, false) == amenities
  {
    FilterConcat(amenities, [id], NotId(id));
    FilterAllPass(amenities, NotId(id));
    assert Filter([id], NotId(id)) == [] by {
      assert [id][1..] == [];
    }
  }

  /** Unchecking twice is unchecking once. */
  lemma UncheckIdempotent(amenities: seq<string>, id: string)
    ensures ToggleAmenity(ToggleAmenity(amenities, id, false), id, false) == ToggleAmenity(amenities, id, false)
  {
    var once := ToggleAmenity(amenities, id, false);
    FilterAllPass(once, NotId(id));
  }

  /** `{ id, createdAt, ...data }`: the stored record; the fields the form does not have are absent. */
  function NewLead(v: FormValues, id: string, now: int): (r: Lead)
    ensures r.id == id && r.createdAt == now && IsUnassigned(r) && !HasAssignment(r)
    ensures r.stage == "" && r.tasks.None? && r.activities.None? && !r.isHot
    ensures r.firstName == v.firstName && r.lastName == v.lastName && FullName(r) == v.firstName + " " + v.lastName
    ensures r.contactNumber == v.contactNumber && r.email == v.email
    ensures r.preferredContactMethod == v.preferredContactMethod && r.preferredContactTime == v.preferredContactTime
    ensures r.propertyType == v.propertyType && r.budgetRange == v.budgetRange
    ensures r.locationPreference == v.locationPreference && r.bedrooms == v.bedrooms && r.bathrooms == v.bathrooms
    ensures r.amenities == v.amenities && r.notes == v.notes
    ensures r.leadSource == v.leadSource && r.inquiryPurpose == v.inquiryPurpose && r.timeline == v.timeline
  {
    Lead(id, v.firstName, v.lastName, v.contactNumber, v.email, v.preferredContactMethod, v.propertyType,
      v.budgetRange, v.locationPreference, v.bedrooms, v.bathrooms, v.leadSource, v.inquiryPurpose,
      v.timeline, v.preferredContactTime, now, v.notes, v.amenities, "", None, "", None, None, false)
  }

  /** The form's state. */
  class LeadFormState {
    const store: LeadStore
    var step: int
    var isSubmitting: bool
    var values: FormValues

    /** The steps run from 1 to 4. */
    predicate Valid()
      reads this
    {
      1 <= step <= 4
    }

    constructor (store: LeadStore)
      ensures Valid() && this.store == store && step == 1 && !isSubmitting && values == DefaultValues
    {
      this.store := store;
      step := 1;
      isSubmitting := false;
      values := DefaultValues;
    }

    /** Editing a field. */
    method Edit(v: FormValues)
      modifies this
      ensures values == v && step == old(step) && isSubmitting == old(isSubmitting)
    {
      values := v;
    }

    /** `nextStep`, wired on steps 1 to 3: one step forward exactly when the step's fields validate. */
    method NextStep(emailOk: string -> bool)
      requires 1 <= step <= 3
      modifies this
      ensures Valid()
      ensures step == old(step) + (if Validates(values, StepFields(old(step)), emailOk) then 1 else 0)
      ensures values == old(values) && isSubmitting == old(isSubmitting)
    {
      if Validates(values, StepFields(step), emailOk) {
        step := step + 1;
      }
    }

    /** `prevStep`, wired on steps 2 to 4. */
    method PrevStep()
      requires 2 <= step <= 4
      modifies this
      ensures Valid() && step == old(step) - 1
      ensures values == old(values) && isSubmitting == old(isSubmitting)
    {
      step := step - 1;
    }

    /**
     * The submit button: the resolver runs the whole schema first and
     * calls `onSubmit` only when it holds. The save appends the new lead
     * to the stored array (an absent key reads as `[]`) when it succeeds
     * (`saveOk`); either way the submitting flag ends false.
     */
    method Submit(emailOk: string -> bool, saveOk: bool, id: string, now: int)
      modifies this, store
      ensures !isSubmitting && step == old(step) && values == old(values)
      ensures SchemaValid(values, emailOk) && saveOk ==>
        store.present && store.leads == (if old(store.present) then old(store.leads) else []) + [NewLead(values, id, now)]
      ensures !(SchemaValid(values, emailOk) && saveOk) ==>
        store.present == old(store.present) && store.leads == old(store.leads)
    {
      if !SchemaValid(values, emailOk) {
        isSubmitting := false;
        return;
      }
      isSubmitting := true;
      if saveOk {
        var existing := if store.present then store.leads else [];
        store.leads := existing + [NewLead(values, id, now)];
        store.present := true;
      }
      isSubmitting := false;
    }
  }

  /** A successful submit keeps every existing lead in place and adds exactly one at the end. */
  lemma SubmitAppends(existing: seq<Lead>, v: FormValues, id: string, now: int)
    ensures var after := existing + [NewLead(v, id, now)];
      |after| == |existing| + 1 && after[..|existing|] == existing && after[|existing|].id == id
  {
    assert (existing + [NewLead(v, id, now)])[..|existing|] == existing;
  }
}
