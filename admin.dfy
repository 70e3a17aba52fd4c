/**
 * The case admin's `save_model`: before the record is stored, a blank case
 * number is generated from the date and the number of cases so far, and a
 * missing reporter is set to the signed-in staff user.
 */
module Admin {
  import opened Wrappers
  import opened Errors
  import opened Strings
  import opened Clock
  import opened Models

  /** `f"MC-{now:%Y%m%d}-{count + 1:04d}"`. */
  function CaseNumber(now: DateTime, count: nat): (r: string)
    ensures |r| >= 16 && r[..3] == "MC-"
    ensures 3 + |StampDate(now)| < |r| && r[3 + |StampDate(now)|] == '-'
  {
    "MC-" + StampDate(now) + "-" + PadInt(count + 1, 4)
  }

  /** The date stamp and the serial a case number carries. */
  datatype CaseId = CaseId(date: string, serial: nat)

  /** Reads back a case number of the generated shape. */
  function ParseCaseNumber(s: string): (r: Option<CaseId>)
    ensures r.Some? ==> |r.value.date| == 8 && AllDigits(r.value.date)
  {
    if |s| >= 16 && s[..3] == "MC-" && AllDigits(s[3..11]) && s[11] == '-' && AllDigits(s[12..]) then
      Some(CaseId(s[3..11], DigitsValue(s[12..])))
    else None
  }

  /**
   * A generated number reads back as the date stamp and `count + 1`: the
   * serial is zero-padded to at least four digits and never truncated.
   */
  lemma CaseNumberRoundTrip(now: DateTime, count: nat)
    requires Valid(now)
    ensures ParseCaseNumber(CaseNumber(now, count)) == Some(CaseId(StampDate(now), count + 1))
    ensures |CaseNumber(now, count)| >= 16
  {
    var s := CaseNumber(now, count);
    var serial := PadInt(count + 1, 4);
    StampDateShape(now);
    PadIntValue(count + 1, 4);
    assert s[..3] == "MC-";
    assert s[3..11] == StampDate(now);
    assert s[11] == '-';
    assert s[12..] == serial;
  }

  /** Different counts, or different days, give different case numbers. */
  lemma CaseNumbersDiffer(d1: DateTime, c1: nat, d2: DateTime, c2: nat)
    requires Valid(d1) && Valid(d2)
    requires c1 != c2 || StampDate(d1) != StampDate(d2)
    ensures CaseNumber(d1, c1) != CaseNumber(d2, c2)
  {
    CaseNumberRoundTrip(d1, c1);
    CaseNumberRoundTrip(d2, c2);
  }

  /**
   * The record after `save_model`'s two defaults: a case number only when it
   * is blank, the staff user as reporter only when there is none.
   */
  function Defaulted(c: MissingChild, now: DateTime, count: nat, user: UserId): (r: MissingChild)
    ensures c.caseNumber != "" ==> r.caseNumber == c.caseNumber
    ensures c.caseNumber == "" ==> r.caseNumber == CaseNumber(now, count)
    ensures c.reportedBy.Some? ==> r.reportedBy == c.reportedBy
    ensures c.reportedBy.None? ==> r.reportedBy == Some(user)
    ensures r.(caseNumber := c.caseNumber, reportedBy := c.reportedBy) == c
  {
    var numbered := if c.caseNumber == "" then c.(caseNumber := CaseNumber(now, count)) else c;
    if numbered.reportedBy.None? then numbered.(reportedBy := Some(user)) else numbered
  }

  /** Saving again never overwrites the number or the reporter the first save gave. */
  lemma DefaultsAreKept(c: MissingChild, now: DateTime, count: nat, user: UserId,
                        later: DateTime, laterCount: nat, otherUser: UserId)
    ensures var once := Defaulted(c, now, count, user);
      Defaulted(once, later, laterCount, otherUser) == once
  {
    var once := Defaulted(c, now, count, user);
    assert once.caseNumber != "" by {
      if c.caseNumber == "" {
        assert once.caseNumber[0] == 'M';
      }
    }
  }

  /** An admin form's model instance, whose fields `save_model` sets in place. */
  class ChildInstance {
    var record: MissingChild

    constructor (c: MissingChild)
      ensures record == c
    {
      record := c;
    }
  }

  /**
   * `save_model(request, obj, form, change)`: the defaults, then
   * `obj.save()` (an insert for a new case, an update otherwise), which may
   * raise `IntegrityError` and then leaves the table as it was.
   */
  method SaveModel(obj: ChildInstance, table: ChildTable, now: DateTime, user: UserId, change: bool)
    returns (error: Option<Exception>)
    requires table.Valid()
    modifies obj, table
    ensures table.Valid()
    ensures obj.record == Defaulted(old(obj.record), now, |old(table.rows)|, user)
    ensures SaveCase(old(table.rows), obj.record, !change).Saved? ==>
              error.None? && table.rows == SaveCase(old(table.rows), obj.record, !change).rows
    ensures SaveCase(old(table.rows), obj.record, !change).Rejected? ==>
              error == Some(SaveCase(old(table.rows), obj.record, !change).error) && table.rows == old(table.rows)
  {
    if obj.record.caseNumber == "" {
      obj.record := obj.record.(caseNumber := CaseNumber(now, |table.rows|));
    }
    if obj.record.reportedBy.None? {
      obj.record := obj.record.(reportedBy := Some(user));
    }
    error := table.Save(obj.record, !change);
  }
}
