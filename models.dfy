/**
 * The records of the case registry: their fields, the choice enums with
 * their stored codes, the field defaults, the `__str__` forms and the
 * uniqueness constraints the database enforces.  The two tables the core
 * writes to are classes whose `Valid()` is the uniqueness constraint.
 */
module Models {
  import opened Wrappers
  import opened Errors
  import opened Strings
  import opened Clock

  /** Primary key of a Django `User`. */
  type UserId = nat

  // ---- choice enums ------------------------------------------------------

  datatype Status = Missing | Found | Located

  function StatusCode(s: Status): string {
    match s
    case Missing => "missing"
    case Found => "found"
    case Located => "located"
  }

  /** Reads a stored status code; only the three choices are accepted. */
  function ParseStatus(code: string): (r: Option<Status>)
    ensures r.Some? <==> code in {"missing", "found", "located"}
    ensures r.Some? ==> StatusCode(r.value) == code
  {
    if code == "missing" then Some(Missing)
    else if code == "found" then Some(Found)
    else if code == "located" then Some(Located)
    else None
  }

  datatype Gender = Male | Female | Other

  function GenderCode(g: Gender): string {
    match g
    case Male => "M"
    case Female => "F"
    case Other => "O"
  }

  function ParseGender(code: string): (r: Option<Gender>)
    ensures r.Some? <==> code in {"M", "F", "O"}
    ensures r.Some? ==> GenderCode(r.value) == code
  {
    if code == "M" then Some(Male)
    else if code == "F" then Some(Female)
    else if code == "O" then Some(Other)
    else None
  }

  datatype LeadStatus = New | InReview | Investigating | VerifiedLead | FalseLead

  function LeadStatusCode(s: LeadStatus): string {
    match s
    case New => "new"
    case InReview => "in_review"
    case Investigating => "investigating"
    case VerifiedLead => "verified"
    case FalseLead => "false"
  }

  function ParseLeadStatus(code: string): (r: Option<LeadStatus>)
    ensures r.Some? <==> code in {"new", "in_review", "investigating", "verified", "false"}
    ensures r.Some? ==> LeadStatusCode(r.value) == code
  {
    if code == "new" then Some(New)
    else if code == "in_review" then Some(InReview)
    else if code == "investigating" then Some(Investigating)
    else if code == "verified" then Some(VerifiedLead)
    else if code == "false" then Some(FalseLead)
    else None
  }

  // ---- records -----------------------------------------------------------

  /** A missing-child case (photo and timestamps of edits are not modelled). */
  datatype MissingChild = MissingChild(
    id: string,
    caseNumber: string,
    firstName: string,
    lastName: string,
    age: int,
    gender: Gender,
    height: string,
    weight: string,
    eyeColor: string,
    hairColor: string,
    lastSeenDate: DateTime,
    lastSeenLocation: string,
    lastSeenWearing: string,
    distinctiveFeatures: string,
    status: Status,
    isAbducted: bool,
    reportedBy: Option<UserId>,
    reportedDate: DateTime)

  /** A reported sighting of a child. */
  datatype LocationUpdate = LocationUpdate(
    childId: string,
    location: string,
    sightingTime: DateTime,
    reportedBy: string,
    contactNumber: string,
    description: string,
    verified: bool,
    reportedAt: DateTime)

  /** A tip about a case (the evidence file is not modelled). */
  datatype Lead = Lead(
    childId: string,
    reportedBy: Option<UserId>,
    reporterName: string,
    reporterEmail: string,
    reporterPhone: string,
    information: string,
    status: LeadStatus,
    createdAt: DateTime)

  /** An e-mail alert subscription. */
  datatype AlertSubscription = AlertSubscription(
    email: string,
    location: string,
    subscribed: bool,
    createdAt: DateTime,
    verificationToken: string,
    verified: bool)

  /** An SMS alert subscription. */
  datatype SmsSubscription = SmsSubscription(
    phoneNumber: string,
    verified: bool,
    verificationCode: string,
    verificationSentAt: Option<DateTime>,
    location: string,
    radiusMiles: int,
    active: bool,
    createdAt: DateTime)

  // ---- defaults ----------------------------------------------------------

  /**
   * A case created with only its required fields: status `'missing'`, not
   * flagged as abducted, no reporter, the optional text fields blank.
   */
  function NewMissingChild(id: string, caseNumber: string, firstName: string, lastName: string, age: int,
                           gender: Gender, lastSeenDate: DateTime, lastSeenLocation: string, now: DateTime): (c: MissingChild)
    ensures c.status == Missing && StatusCode(c.status) == "missing" && !c.isAbducted && c.reportedBy.None?
    ensures c.height == "" && c.weight == "" && c.eyeColor == "" && c.hairColor == ""
    ensures c.lastSeenWearing == "" && c.distinctiveFeatures == ""
    ensures c.id == id && c.caseNumber == caseNumber && c.firstName == firstName && c.lastName == lastName
    ensures c.age == age && c.gender == gender && c.reportedDate == now
    ensures c.lastSeenDate == lastSeenDate && c.lastSeenLocation == lastSeenLocation
  {
    MissingChild(id, caseNumber, firstName, lastName, age, gender, "", "", "", "",
                 lastSeenDate, lastSeenLocation, "", "", Missing, false, None, now)
  }

  /** A sighting as first stored: nobody has reviewed it yet. */
  function NewLocationUpdate(childId: string, location: string, sightingTime: DateTime, reportedBy: string,
                             contactNumber: string, description: string, now: DateTime): (u: LocationUpdate)
    ensures !u.verified && u.reportedAt == now
    ensures u.childId == childId && u.location == location && u.sightingTime == sightingTime
  {
    LocationUpdate(childId, location, sightingTime, reportedBy, contactNumber, description, false, now)
  }

  /** A lead as first stored: status `'new'`. */
  function NewLead(childId: string, reportedBy: Option<UserId>, name: string, email: string, phone: string,
                   information: string, now: DateTime): (l: Lead)
    ensures l.status == New && LeadStatusCode(l.status) == "new" && l.createdAt == now
    ensures l.childId == childId && l.reporterName == name && l.reporterEmail == email
  {
    Lead(childId, reportedBy, name, email, phone, information, New, now)
  }

  /** An e-mail subscription as first stored: subscribed, not verified, no token. */
  function NewAlertSubscription(email: string, location: string, now: DateTime): (s: AlertSubscription)
    ensures s.subscribed && !s.verified && s.verificationToken == ""
    ensures s.email == email && s.location == location && s.createdAt == now
  {
    AlertSubscription(email, location, true, now, "", false)
  }

  /** An SMS subscription as first stored: unverified, active, 10-mile radius, no code. */
  function NewSmsSubscription(phone: string, now: DateTime): (s: SmsSubscription)
    ensures !s.verified && s.active && s.radiusMiles == 10
    ensures s.verificationCode == "" && s.verificationSentAt.None? && s.location == ""
    ensures s.phoneNumber == phone && s.createdAt == now
  {
    SmsSubscription(phone, false, "", None, "", 10, true, now)
  }

  // ---- lookups and default orderings ------------------------------------

  /**
   * `MissingChild.objects.get(id=...)` and `get_object_or_404(MissingChild, pk=...)`:
   * the case with that primary key, if any, keys compared as canonical UUID text.
   */
  function FindCase(cases: seq<MissingChild>, id: string): (r: Option<MissingChild>)
    ensures r.None? <==> forall i :: 0 <= i < |cases| ==> cases[i].id != id
    ensures r.Some? ==> r.value in cases && r.value.id == id
    decreases |cases|
  {
    if cases == [] then None
    else if cases[0].id == id then Some(cases[0])
    else FindCase(cases[1..], id)
  }

  /** The key of `ordering = ['-reported_date']`. */
  function ReportedKey(c: MissingChild): int {
    Ordinal(c.reportedDate)
  }

  /** The key of `ordering = ['-sighting_time']`. */
  function SightingKey(u: LocationUpdate): int {
    Ordinal(u.sightingTime)
  }

  /** The key of `ordering = ['-created_at']`. */
  function CreatedKey(s: SmsSubscription): int {
    Ordinal(s.createdAt)
  }

  // ---- column constraints ------------------------------------------------

  /** The `max_length` limits of an SMS subscription's columns. */
  predicate SmsColumnsFit(s: SmsSubscription) {
    |s.phoneNumber| <= 20 && |s.verificationCode| <= 6 && |s.location| <= 100
  }

  /** The `unique=True` phone numbers of the SMS subscription table. */
  predicate UniquePhones(rows: seq<SmsSubscription>) {
    forall i, j :: 0 <= i < j < |rows| ==> rows[i].phoneNumber != rows[j].phoneNumber
  }

  /** The attributes an `SMSSubscription` instance has. */
  const SmsSubscriptionFields: set<string> :=
    {"id", "phone_number", "verified", "verification_code", "verification_sent_at",
     "location", "radius_miles", "active", "created_at"}

  // ---- string forms ------------------------------------------------------

  /** `MissingChild.__str__`: `"<first> <last> - <case_number>"`. */
  function ChildLabel(c: MissingChild): (r: string)
    ensures |r| == |c.firstName| + |c.lastName| + |c.caseNumber| + 4
    ensures r[..|c.firstName|] == c.firstName
    ensures r[|c.firstName|..|c.firstName| + 1 + |c.lastName|] == " " + c.lastName
    ensures r[|r| - |c.caseNumber| - 3..] == " - " + c.caseNumber
  {
    c.firstName + " " + c.lastName + " - " + c.caseNumber
  }

  /** `SMSSubscription.__str__`: the phone number and whether it is verified. */
  function SmsLabel(s: SmsSubscription): (r: string)
    ensures |r| > |s.phoneNumber| && r[..|s.phoneNumber|] == s.phoneNumber
    ensures s.verified <==> r[|s.phoneNumber|..] == " - Verified"
    ensures !s.verified <==> r[|s.phoneNumber|..] == " - Pending"
  {
    s.phoneNumber + " - " + (if s.verified then "Verified" else "Pending")
  }

  // ---- the case table ----------------------------------------------------

  /** Primary keys and case numbers are each unique across the table. */
  ghost predicate UniqueCases(rows: seq<MissingChild>) {
    forall i, j :: 0 <= i < j < |rows| ==> rows[i].id != rows[j].id && rows[i].caseNumber != rows[j].caseNumber
  }

  /** Overwrites the row with the same primary key, or appends when there is none. */
  function Upsert(rows: seq<MissingChild>, c: MissingChild): (r: seq<MissingChild>)
    ensures |rows| <= |r| <= |rows| + 1
    ensures c in r
    decreases |rows|
  {
    if rows == [] then [c]
    else if rows[0].id == c.id then [c] + rows[1..]
    else [rows[0]] + Upsert(rows[1..], c)
  }

  /** Every row of the upserted table is the new record or an old row with another key. */
  lemma {:induction false} UpsertRows(rows: seq<MissingChild>, c: MissingChild)
    requires UniqueCases(rows)
    ensures c in Upsert(rows, c)
    ensures forall x :: x in Upsert(rows, c) ==> x == c || (x in rows && x.id != c.id)
    ensures UniqueCases(rows) && (forall i :: 0 <= i < |rows| && rows[i].id != c.id ==> rows[i] in Upsert(rows, c))
    decreases |rows|
  {
    if rows != [] && rows[0].id != c.id {
      UpsertRows(rows[1..], c);
    }
  }

  datatype SaveOutcome = Saved(rows: seq<MissingChild>) | Rejected(error: Exception)

  /**
   * `Model.save()` on the case table: an insert (`adding`) or an update by
   * primary key, refused with `IntegrityError` when it would duplicate a
   * primary key or another row's case number.
   */
  function SaveCase(rows: seq<MissingChild>, c: MissingChild, adding: bool): (r: SaveOutcome)
    ensures r.Saved? <==>
      && (adding ==> forall i :: 0 <= i < |rows| ==> rows[i].id != c.id)
      && (forall i :: 0 <= i < |rows| && rows[i].id != c.id ==> rows[i].caseNumber != c.caseNumber)
    ensures r.Rejected? ==> r.error.IntegrityError?
    ensures r.Saved? ==> c in r.rows && |rows| <= |r.rows| <= |rows| + 1
    ensures r.Saved? && adding ==> r.rows == rows + [c]
  {
    if adding && exists i :: 0 <= i < |rows| && rows[i].id == c.id then
      Rejected(IntegrityError("id"))
    else if exists i :: 0 <= i < |rows| && rows[i].id != c.id && rows[i].caseNumber == c.caseNumber then
      Rejected(IntegrityError("case_number"))
    else if adding then Saved(rows + [c])
    else Saved(Upsert(rows, c))
  }

  /** A successful save keeps both uniqueness constraints and stores the record. */
  lemma SaveCaseKeepsUnique(rows: seq<MissingChild>, c: MissingChild, adding: bool)
    requires UniqueCases(rows)
    requires SaveCase(rows, c, adding).Saved?
    ensures UniqueCases(SaveCase(rows, c, adding).rows)
    ensures c in SaveCase(rows, c, adding).rows
  {
    if !adding {
      var r := Upsert(rows, c);
      UpsertRows(rows, c);
      UpsertUnique(rows, c);
    }
  }

  lemma {:induction false} UpsertUnique(rows: seq<MissingChild>, c: MissingChild)
    requires UniqueCases(rows)
    requires forall i :: 0 <= i < |rows| && rows[i].id != c.id ==> rows[i].caseNumber != c.caseNumber
    ensures UniqueCases(Upsert(rows, c))
    decreases |rows|
  {
    if rows != [] {
      if rows[0].id == c.id {
        assert forall x :: x in rows[1..] ==> x.id != c.id;
      } else {
        UpsertUnique(rows[1..], c);
        UpsertRows(rows[1..], c);
        var r := Upsert(rows, c);
        forall k | 1 <= k < |r| ensures r[0].id != r[k].id && r[0].caseNumber != r[k].caseNumber {
          assert r[k] in Upsert(rows[1..], c);
        }
      }
    }
  }

  /** The `missing_children_missingchild` table. */
  class ChildTable {
    var rows: seq<MissingChild>

    ghost predicate Valid()
      reads this
    {
      UniqueCases(rows)
    }

    constructor ()
      ensures Valid() && rows == []
    {
      rows := [];
    }

    /** `obj.save()`: stores the record, or raises and leaves the table as it was. */
    method Save(c: MissingChild, adding: bool) returns (error: Option<Exception>)
      requires Valid()
      modifies this
      ensures Valid()
      ensures SaveCase(old(rows), c, adding).Saved? ==> error.None? && rows == SaveCase(old(rows), c, adding).rows
      ensures SaveCase(old(rows), c, adding).Rejected? ==>
                error == Some(SaveCase(old(rows), c, adding).error) && rows == old(rows)
    {
      var outcome := SaveCase(rows, c, adding);
      if outcome.Saved? {
        SaveCaseKeepsUnique(rows, c, adding);
        rows := outcome.rows;
        error := None;
      } else {
        error := Some(outcome.error);
      }
    }
  }

  // ---- the e-mail subscription table -------------------------------------

  /** `email = EmailField(unique=True)`. */
  ghost predicate UniqueEmails(rows: seq<AlertSubscription>) {
    forall i, j :: 0 <= i < j < |rows| ==> rows[i].email != rows[j].email
  }

  /** The `missing_children_alertsubscription` table. */
  class SubscriptionTable {
    var rows: seq<AlertSubscription>

    ghost predicate Valid()
      reads this
    {
      UniqueEmails(rows)
    }

    constructor ()
      ensures Valid() && rows == []
    {
      rows := [];
    }

    /** Inserts a subscription whose e-mail the table does not hold yet. */
    method Add(s: AlertSubscription)
      requires Valid() && forall i :: 0 <= i < |rows| ==> rows[i].email != s.email
      modifies this
      ensures Valid() && rows == old(rows) + [s]
    {
      rows := rows + [s];
    }

    /** Saves row `i` with `verified` set; nothing else changes. */
    method MarkVerified(i: nat)
      requires Valid() && i < |rows|
      modifies this
      ensures Valid() && rows == old(rows)[i := old(rows)[i].(verified := true)]
    {
      rows := rows[i := rows[i].(verified := true)];
    }
  }
}
