/**
 * The public forms: the search form's field constraints, and the fields the
 * report and subscribe forms expose, with the records `form.save(commit=False)`
 * builds from them (every other field takes its model default).
 */
module Forms {
  import opened Wrappers
  import opened Strings
  import opened Clock
  import opened Models

  // ---- SearchForm --------------------------------------------------------

  /** The submitted search parameters; a blank or absent field is `""` or `None`. */
  datatype SearchInput = SearchInput(
    q: string, ageMin: Option<int>, ageMax: Option<int>, gender: string, status: string, location: string)

  /** `form.cleaned_data` of a valid search form. */
  datatype SearchFilters = SearchFilters(
    q: string, ageMin: Option<int>, ageMax: Option<int>, gender: Option<Gender>, status: Option<Status>, location: string)

  /** `IntegerField(required=False, min_value=0, max_value=18)`. */
  predicate AgeFieldOk(a: Option<int>) {
    a.None? || 0 <= a.value <= 18
  }

  /** `ChoiceField(required=False, choices=[('', 'All')] + ...)` for gender. */
  function CleanGender(code: string): (r: Option<Option<Gender>>)
    ensures r.Some? <==> code in {"", "M", "F", "O"}
    ensures r == Some(None) <==> code == ""
  {
    if code == "" then Some(None)
    else match ParseGender(code)
      case Some(g) => Some(Some(g))
      case None => None
  }

  /** The same choice rule for status. */
  function CleanStatus(code: string): (r: Option<Option<Status>>)
    ensures r.Some? <==> code in {"", "missing", "found", "located"}
    ensures r == Some(None) <==> code == ""
  {
    if code == "" then Some(None)
    else match ParseStatus(code)
      case Some(s) => Some(Some(s))
      case None => None
  }

  /**
   * `form.is_valid()` and `form.cleaned_data`: `None` when any field is
   * invalid.  The two `CharField`s strip their values, and `max_length` is
   * checked on what is left.
   */
  function CleanSearch(input: SearchInput): (r: Option<SearchFilters>)
    ensures r.Some? <==>
      && AgeFieldOk(input.ageMin) && AgeFieldOk(input.ageMax)
      && input.gender in {"", "M", "F", "O"}
      && input.status in {"", "missing", "found", "located"}
      && |Strip(input.location)| <= 100
    ensures r.Some? ==>
      && r.value.q == Strip(input.q) && r.value.location == Strip(input.location)
      && r.value.ageMin == input.ageMin && r.value.ageMax == input.ageMax
      && (r.value.gender.Some? ==> GenderCode(r.value.gender.value) == input.gender)
      && (r.value.gender.None? <==> input.gender == "")
      && (r.value.status.Some? ==> StatusCode(r.value.status.value) == input.status)
      && (r.value.status.None? <==> input.status == "")
  {
    match (CleanGender(input.gender), CleanStatus(input.status))
    case (Some(g), Some(s)) =>
      var location := Strip(input.location);
      if AgeFieldOk(input.ageMin) && AgeFieldOk(input.ageMax) && |location| <= 100 then
        Some(SearchFilters(Strip(input.q), input.ageMin, input.ageMax, g, s, location))
      else None
    case _ => None
  }

  /** Every field is optional: the empty submission is valid and filters nothing. */
  lemma EmptySearchIsValid()
    ensures CleanSearch(SearchInput("", None, None, "", "", "")) == Some(SearchFilters("", None, None, None, None, ""))
  {
    assert CleanGender("") == Some(None) && CleanStatus("") == Some(None);
    StripEmpty("");
  }

  /** Whitespace around the search text or the location does not change the cleaned data. */
  lemma SearchIgnoresPadding(input: SearchInput, before: string, after: string)
    requires AllSpace(before) && AllSpace(after)
    ensures CleanSearch(input.(q := before + input.q + after)) == CleanSearch(input)
    ensures CleanSearch(input.(location := before + input.location + after)) == CleanSearch(input)
  {
    StripIgnoresPadding(input.q, before, after);
    StripIgnoresPadding(input.location, before, after);
  }

  // ---- MissingChildForm --------------------------------------------------

  /** `MissingChildForm.Meta.fields` (the photo upload is not modelled). */
  const ReportFormFields: seq<string> :=
    ["first_name", "last_name", "age", "gender", "height", "weight", "eye_color", "hair_color",
     "last_seen_date", "last_seen_location", "last_seen_wearing", "distinctive_features", "photo", "is_abducted"]

  /** The values submitted for the report form's fields. */
  datatype ReportForm = ReportForm(
    firstName: string, lastName: string, age: int, gender: Gender, height: string, weight: string,
    eyeColor: string, hairColor: string, lastSeenDate: DateTime, lastSeenLocation: string,
    lastSeenWearing: string, distinctiveFeatures: string, isAbducted: bool)

  /**
   * The text-field checks of the report form: every value is stripped, the
   * three required text fields must not be left blank, and the `max_length`
   * limits taken from the model's columns apply to the stripped values.
   */
  predicate ReportFormFits(f: ReportForm) {
    && Strip(f.firstName) != "" && Strip(f.lastName) != "" && Strip(f.lastSeenLocation) != ""
    && |Strip(f.firstName)| <= 100 && |Strip(f.lastName)| <= 100
    && |Strip(f.height)| <= 20 && |Strip(f.weight)| <= 20
    && |Strip(f.eyeColor)| <= 50 && |Strip(f.hairColor)| <= 50
    && |Strip(f.lastSeenLocation)| <= 255
  }

  /**
   * `form.save(commit=False)` on the report form: the submitted fields are
   * copied, text fields stripped as the form cleaned them, and the fields
   * the form does not expose take their defaults (`status='missing'`,
   * `case_number=''`, no reporter).
   */
  function ChildFromForm(f: ReportForm, id: string, now: DateTime): (c: MissingChild)
    ensures c.status == Missing && c.caseNumber == "" && c.reportedBy.None?
    ensures c.id == id && c.reportedDate == now
    ensures c.age == f.age && c.gender == f.gender && c.lastSeenDate == f.lastSeenDate && c.isAbducted == f.isAbducted
    ensures c.firstName == Strip(f.firstName) && c.lastName == Strip(f.lastName)
    ensures c.height == Strip(f.height) && c.weight == Strip(f.weight)
    ensures c.eyeColor == Strip(f.eyeColor) && c.hairColor == Strip(f.hairColor)
    ensures c.lastSeenLocation == Strip(f.lastSeenLocation) && c.lastSeenWearing == Strip(f.lastSeenWearing)
    ensures c.distinctiveFeatures == Strip(f.distinctiveFeatures)
  {
    MissingChild(id, "", Strip(f.firstName), Strip(f.lastName), f.age, f.gender, Strip(f.height), Strip(f.weight),
                 Strip(f.eyeColor), Strip(f.hairColor), f.lastSeenDate, Strip(f.lastSeenLocation),
                 Strip(f.lastSeenWearing), Strip(f.distinctiveFeatures), Missing, f.isAbducted, None, now)
  }

  /** No text field of a saved report begins or ends with whitespace, and the required ones are not blank. */
  lemma ReportTextIsStripped(f: ReportForm, id: string, now: DateTime)
    requires ReportFormFits(f)
    ensures var c := ChildFromForm(f, id, now);
      && c.firstName != "" && c.lastName != "" && c.lastSeenLocation != ""
      && Unpadded(c.firstName) && Unpadded(c.lastName) && Unpadded(c.height) && Unpadded(c.weight)
      && Unpadded(c.eyeColor) && Unpadded(c.hairColor) && Unpadded(c.lastSeenLocation)
      && Unpadded(c.lastSeenWearing) && Unpadded(c.distinctiveFeatures)
  {
    StripShape(f.firstName);
    StripShape(f.lastName);
    StripShape(f.height);
    StripShape(f.weight);
    StripShape(f.eyeColor);
    StripShape(f.hairColor);
    StripShape(f.lastSeenLocation);
    StripShape(f.lastSeenWearing);
    StripShape(f.distinctiveFeatures);
  }

  // ---- AlertSubscriptionForm ---------------------------------------------

  /** `AlertSubscriptionForm.Meta.fields`. */
  const SubscribeFormFields: seq<string> := ["email", "location"]

  /** The fields only the server sets. */
  const ServerControlledFields: set<string> :=
    {"status", "case_number", "reported_by", "subscribed", "verified", "verification_token"}

  /** Neither public form lets a submitter choose a server-controlled field. */
  lemma PublicFormsOmitServerFields()
    ensures forall f :: f in ReportFormFields ==> f !in ServerControlledFields
    ensures forall f :: f in SubscribeFormFields ==> f !in ServerControlledFields
  {
  }

  /**
   * `AlertSubscriptionForm.is_valid()`: both values are stripped; the
   * address is required, passes the e-mail validator (a parameter here) and
   * fits 254 characters, the location fits 100, and no subscription holds
   * the stripped address yet (the model form's uniqueness check).
   */
  predicate SubscribeFormValid(email: string, location: string, isEmail: string -> bool, rows: seq<AlertSubscription>) {
    var address := Strip(email);
    address != "" && isEmail(address) && |address| <= 254 && |Strip(location)| <= 100
    && forall i :: 0 <= i < |rows| ==> rows[i].email != address
  }
}
