/**
 * `report_missing_child`: a public report is saved with its status forced
 * to missing and its reporter set from the session, and the subscribers
 * are then mailed.
 */
module Report {
  import opened Wrappers
  import opened Errors
  import opened Strings
  import opened Clock
  import opened Models
  import opened Query
  import opened Forms
  import opened Mailer
  import opened Http
  import opened SubscriberMail

  // ---- report_missing_child (lines 76-89) --------------------------------

  /** The saved record: the form's fields, status forced to missing, the reporter if signed in. */
  function ReportedChild(f: ReportForm, pk: string, now: DateTime, user: Option<UserId>): (c: MissingChild)
    ensures c.status == Missing && c.reportedBy == user && c.caseNumber == "" && c.id == pk
    ensures c.firstName == Strip(f.firstName) && c.lastName == Strip(f.lastName) && c.age == f.age
    ensures c.lastSeenLocation == Strip(f.lastSeenLocation) && c.isAbducted == f.isAbducted
  {
    ChildFromForm(f, pk, now).(status := Missing, reportedBy := user)
  }

  datatype ReportResult = ReportResult(response: Response, rows: seq<MissingChild>, attempted: seq<Mail>, delivered: seq<Mail>)

  /**
   * A submitted report: an invalid form is shown again; otherwise the case
   * is saved and, once saved, the enabled subscriptions are mailed.  A
   * refused save raises before any mail; a name holding a line break makes
   * the shared subject raise `BadHeaderError` after the save, once there is
   * someone to mail.  `formOk` stands for the form checks outside the model
   * (the age, the date and the photo).
   */
  function SubmitReport(rows: seq<MissingChild>, subs: seq<AlertSubscription>, f: ReportForm, formOk: bool,
                        pk: string, now: DateTime, user: Option<UserId>, from: string, api: MailApi): ReportResult
  {
    if !(formOk && ReportFormFits(f)) then ReportResult(Rerender, rows, [], [])
    else
      var child := ReportedChild(f, pk, now, user);
      match SaveCase(rows, child, true)
      case Rejected(e) => ReportResult(ServerError(e), rows, [], [])
      case Saved(saved) =>
        var mails := SubscriberAlerts(child, subs, from);
        if HasLineBreak(AlertSubject(child)) && mails != [] then
          ReportResult(ServerError(BadHeaderError("Subject")), saved, [], [])
        else ReportResult(RedirectToCase(pk), saved, mails, Filter(mails, api))
  }

  method ReportMissingChild(table: ChildTable, subs: seq<AlertSubscription>, f: ReportForm, formOk: bool,
                            pk: string, now: DateTime, user: Option<UserId>, from: string, api: MailApi)
    returns (response: Response, attempted: seq<Mail>, delivered: seq<Mail>)
    requires table.Valid()
    modifies table
    ensures table.Valid()
    ensures ReportResult(response, table.rows, attempted, delivered)
         == SubmitReport(old(table.rows), subs, f, formOk, pk, now, user, from, api)
  {
    if !(formOk && ReportFormFits(f)) {
      return Rerender, [], [];
    }
    var child := ReportedChild(f, pk, now, user);
    ghost var outcome := SaveCase(table.rows, child, true);
    ghost var mails := SubscriberAlerts(child, subs, from);
    assert SubmitReport(table.rows, subs, f, formOk, pk, now, user, from, api)
        == if outcome.Rejected? then ReportResult(ServerError(outcome.error), table.rows, [], [])
           else if HasLineBreak(AlertSubject(child)) && mails != [] then
             ReportResult(ServerError(BadHeaderError("Subject")), outcome.rows, [], [])
           else ReportResult(RedirectToCase(pk), outcome.rows, mails, Filter(mails, api));
    var error := table.Save(child, true);
    if error.Some? {
      assert outcome.Rejected? && error.value == outcome.error;
      return ServerError(error.value), [], [];
    }
    assert outcome.Saved? && table.rows == outcome.rows;
    var failure;
    attempted, delivered, failure := SendAlertToSubscribers(child, subs, from, api);
    response := if failure.Some? then ServerError(failure.value) else RedirectToCase(pk);
  }

  /**
   * A report that is accepted appends one case, with status missing and the
   * submitter as reporter, keeps the table's uniqueness, and hands the
   * alert to every enabled subscription, in table order.
   */
  lemma AcceptedReportIsMissing(rows: seq<MissingChild>, subs: seq<AlertSubscription>, f: ReportForm, formOk: bool,
                                pk: string, now: DateTime, user: Option<UserId>, from: string, api: MailApi)
    requires UniqueCases(rows)
    requires SubmitReport(rows, subs, f, formOk, pk, now, user, from, api).response.RedirectToCase?
    ensures var r := SubmitReport(rows, subs, f, formOk, pk, now, user, from, api);
      && r.rows == rows + [ReportedChild(f, pk, now, user)]
      && r.rows[|rows|].status == Missing && r.rows[|rows|].reportedBy == user
      && UniqueCases(r.rows)
      && r.attempted == SubscriberAlerts(ReportedChild(f, pk, now, user), subs, from)
      && |r.attempted| == |Filter(subs, AlertsOn)|
      && r.delivered == Filter(r.attempted, api)
  {
    var child := ReportedChild(f, pk, now, user);
    var outcome := SaveCase(rows, child, true);
    var mails := SubscriberAlerts(child, subs, from);
    assert formOk && ReportFormFits(f) && outcome.Saved?;
    assert SubmitReport(rows, subs, f, formOk, pk, now, user, from, api)
        == ReportResult(RedirectToCase(pk), outcome.rows, mails, Filter(mails, api));
    SaveCaseKeepsUnique(rows, child, true);
  }

  /**
   * A saved report whose first or last name holds a line break, with at
   * least one enabled subscription, raises `BadHeaderError`: the case stays
   * saved and no alert reaches the transport.
   */
  lemma LineBreakInNameRaises(rows: seq<MissingChild>, subs: seq<AlertSubscription>, f: ReportForm,
                              pk: string, now: DateTime, user: Option<UserId>, from: string, api: MailApi, k: nat)
    requires ReportFormFits(f)
    requires SaveCase(rows, ReportedChild(f, pk, now, user), true).Saved?
    requires HasLineBreak(Strip(f.firstName)) || HasLineBreak(Strip(f.lastName))
    requires k < |subs| && AlertsOn(subs[k])
    ensures SubmitReport(rows, subs, f, true, pk, now, user, from, api)
         == ReportResult(ServerError(BadHeaderError("Subject")), SaveCase(rows, ReportedChild(f, pk, now, user), true).rows, [], [])
  {
    var child := ReportedChild(f, pk, now, user);
    SubjectRefusedIffNameBreaks(child, subs, from);
    EnabledEmails(subs);
    assert subs[k] in subs;
    assert |SubscriberAlerts(child, subs, from)| > 0;
  }

  /**
   * The report form never sets a case number, so once one public report is
   * stored with the blank number, every further one violates `unique=True`
   * and raises before any alert is mailed.
   */
  lemma SecondPublicReportCollides(rows: seq<MissingChild>, subs: seq<AlertSubscription>, f: ReportForm,
                                   pk: string, now: DateTime, user: Option<UserId>, from: string, api: MailApi, j: nat)
    requires ReportFormFits(f)
    requires j < |rows| && rows[j].caseNumber == ""
    requires forall i :: 0 <= i < |rows| ==> rows[i].id != pk
    ensures SubmitReport(rows, subs, f, true, pk, now, user, from, api)
         == ReportResult(ServerError(IntegrityError("case_number")), rows, [], [])
  {
    var child := ReportedChild(f, pk, now, user);
    assert rows[j].id != child.id && rows[j].caseNumber == child.caseNumber;
    assert SaveCase(rows, child, true) == Rejected(IntegrityError("case_number"));
  }

}
