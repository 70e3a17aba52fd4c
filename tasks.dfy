/**
 * The two background jobs: `send_missing_child_alerts`, which mails the
 * matching e-mail subscribers and texts the SMS subscribers about one case,
 * and `send_daily_digest`, which builds a summary of the last day's cases.
 * The database is a value holding the three tables the jobs read; the mail
 * transport and the SMS provider are function parameters.
 */
module Tasks {
  import opened Wrappers
  import opened Errors
  import opened Strings
  import opened Clock
  import opened Models
  import opened Query
  import opened SmsAlert
  import opened Mailer
  import opened Digest
  import SubscriberMail

  /** The rows the jobs read, each table in its database order. */
  datatype Db = Db(cases: seq<MissingChild>, alertSubs: seq<AlertSubscription>, smsSubs: seq<SmsSubscription>)

  /** What the jobs see of the environment: settings, the mail transport and the SMS provider. */
  datatype Env = Env(settings: Settings, defaultFrom: string, clientRaises: bool, mail: MailApi, sms: MessagesApi)

  /** `SMSAlertSystem()` ends up with a client (sms_alert.py lines 10-19). */
  predicate HasClient(env: Env) {
    env.settings.accountSid != "" && env.settings.authToken != "" && !env.clientRaises
  }

  // ---- selection (lines 14-39) -------------------------------------------

  /** Lines 18-20: subscribed, verified, and the subscription's location contains the case's first 50 characters. */
  predicate MatchesCase(s: AlertSubscription, c: MissingChild) {
    s.subscribed && s.verified && IContains(s.location, Take(c.lastSeenLocation, 50))
  }

  /** The e-mail recipients of an alert, in table order. */
  function EmailRecipients(subs: seq<AlertSubscription>, c: MissingChild): (r: seq<AlertSubscription>)
    ensures |r| <= |subs|
    ensures forall s :: s in r <==> s in subs && MatchesCase(s, c)
  {
    Filter(subs, s => MatchesCase(s, c))
  }

  /** `verified=True, active=True`. */
  predicate Reachable(s: SmsSubscription) {
    s.verified && s.active
  }

  /** Lines 34-37: verified and active SMS subscriptions, newest first (the model's default ordering). */
  function SmsRecipients(rows: seq<SmsSubscription>): (r: seq<SmsSubscription>)
    ensures |r| <= |rows|
    ensures forall s :: s in r <==> s in rows && s.verified && s.active
    ensures SortedDesc(r, CreatedKey)
  {
    var sorted := SortDesc(rows, CreatedKey);
    SortDescSameRows(rows, CreatedKey);
    FilterKeepsOrder(sorted, Reachable, CreatedKey);
    Filter(sorted, Reachable)
  }

  /** Line 39: the phone numbers of the subscriptions, in order. */
  function Phones(subs: seq<SmsSubscription>): (r: seq<string>)
    ensures |r| == |subs|
    ensures forall i :: 0 <= i < |subs| ==> r[i] == subs[i].phoneNumber
  {
    seq(|subs|, i requires 0 <= i < |subs| => subs[i].phoneNumber)
  }

  // ---- counting (line 43) ------------------------------------------------

  predicate Succeeded(r: SendResult) {
    r.success
  }

  /** `len([r for r in sms_results if r['success']])`. */
  function SuccessCount(results: seq<SendResult>): (n: nat)
    ensures n <= |results|
    ensures n == |results| <==> forall i :: 0 <= i < |results| ==> results[i].success
  {
    FilterKeepsAll(results, Succeeded);
    |Filter(results, Succeeded)|
  }

  /** The positions of the results marked successful. */
  ghost function SuccessPositions(results: seq<SendResult>): set<nat> {
    set i: nat | i < |results| && results[i].success
  }

  /** One more result adds its position exactly when it succeeded. */
  lemma SuccessPositionsSnoc(init: seq<SendResult>, last: SendResult)
    ensures |init| !in SuccessPositions(init)
    ensures SuccessPositions(init + [last]) == SuccessPositions(init) + (if last.success then {|init|} else {})
  {
    assert forall i :: 0 <= i < |init| ==> (init + [last])[i] == init[i];
  }

  /** The count is the number of results marked successful. */
  lemma {:induction false} SuccessCountCounts(results: seq<SendResult>)
    ensures SuccessCount(results) == |SuccessPositions(results)|
    decreases |results|
  {
    if results != [] {
      var init, last := results[..|results| - 1], results[|results| - 1];
      SuccessCountCounts(init);
      assert results == init + [last];
      FilterSnoc(init, last, Succeeded);
      SuccessPositionsSnoc(init, last);
    }
  }

  /** The positions of the calls the provider answered by creating a message. */
  ghost function AcceptedCalls(attempts: seq<Attempt>, api: MessagesApi): set<nat> {
    set i: nat | i < |attempts| && api(attempts[i].body, attempts[i].from, attempts[i].to).Created?
  }

  /** For a run that answered every number, the count is the number of messages the provider created. */
  lemma CountsAccepted(run: Run<SendResult>, from: string, phones: seq<string>, api: MessagesApi)
    requires AnsweredAll(run, from, phones, api)
    ensures SuccessCount(run.results) == |AcceptedCalls(run.attempts, api)|
  {
    SuccessCountCounts(run.results);
    assert SuccessPositions(run.results) == AcceptedCalls(run.attempts, api);
  }

  // ---- the alert mails (lines 23-30) -------------------------------------

  /** The alert mail; its subject is the one the report view uses. */
  function AlertMail(c: MissingChild, from: string, to: string): Mail {
    Mail(SubscriberMail.AlertSubject(c), "Missing child alert...", from, to)
  }

  function AlertMails(c: MissingChild, subs: seq<AlertSubscription>, from: string): (r: seq<Mail>)
    ensures |r| == |subs|
    ensures forall i :: 0 <= i < |subs| ==> r[i] == AlertMail(c, from, subs[i].email)
  {
    seq(|subs|, i requires 0 <= i < |subs| => AlertMail(c, from, subs[i].email))
  }

  /** The alert mails pass Django's header check exactly when neither name holds a line break. */
  lemma AlertMailsHeaderSafe(c: MissingChild, subs: seq<AlertSubscription>, from: string)
    ensures var mails := AlertMails(c, subs, from);
      forall i :: 0 <= i < |mails| ==>
        (HeaderSafe(mails[i]) <==> !HasLineBreak(c.firstName) && !HasLineBreak(c.lastName))
  {
    SubscriberMail.SubjectBreaksIffName(c);
  }

  // ---- send_missing_child_alerts -----------------------------------------

  /** The dictionary the task returns, or the exception that escapes it. */
  datatype AlertReport =
    | ChildNotFound
    | Report(emailsSent: nat, smsSent: nat, childId: string)
    | TaskRaised(error: Exception)

  /** The report together with every mail and SMS the job handed over. */
  datatype AlertJob = AlertJob(report: AlertReport, mails: seq<Mail>, attempts: seq<Attempt>)

  /** What `len(False)`-style iteration raises (line 43). */
  const NotIterable: string := "'bool' object is not iterable"

  /** The SMS half of the job: the alert loop over the subscribers' numbers, then the report. */
  datatype SmsStage = SmsStage(report: AlertReport, attempts: seq<Attempt>)

  function SmsDispatch(text: string, childId: string, emailsSent: nat, smsSubs: seq<SmsSubscription>, env: Env, rebind: bool): SmsStage {
    var run := AlertRun(text, env.settings.phoneNumber, Phones(SmsRecipients(smsSubs)), env.sms, rebind);
    if run.crash.Some? then SmsStage(TaskRaised(run.crash.value), run.attempts)
    else SmsStage(Report(emailsSent, SuccessCount(run.results), childId), run.attempts)
  }

  /**
   * Whatever the text: texts go, in order, to the verified and active
   * subscriptions, from the configured number; a report's `sms_sent` is the
   * number of texts the provider created, never more than the
   * subscriptions texted; anything raised comes from the provider.
   */
  lemma SmsDispatchShape(text: string, childId: string, emailsSent: nat, smsSubs: seq<SmsSubscription>, env: Env, rebind: bool)
    ensures var stage := SmsDispatch(text, childId, emailsSent, smsSubs, env, rebind); var subs := SmsRecipients(smsSubs);
      && |stage.attempts| <= |subs|
      && (forall i :: 0 <= i < |stage.attempts| ==>
            && stage.attempts[i].to == subs[i].phoneNumber
            && stage.attempts[i].from == env.settings.phoneNumber
            && subs[i] in smsSubs && subs[i].verified && subs[i].active)
      && (stage.report.Report? ==>
            && stage.report == Report(emailsSent, stage.report.smsSent, childId)
            && stage.report.smsSent == |AcceptedCalls(stage.attempts, env.sms)|
            && stage.report.smsSent <= |stage.attempts| == |subs|)
      && (stage.report.TaskRaised? ==> stage.report.error.ProviderError?)
  {
    var phones := Phones(SmsRecipients(smsSubs));
    var run := AlertRun(text, env.settings.phoneNumber, phones, env.sms, rebind);
    RunReachesSubscribers(text, smsSubs, env, rebind);
    AlertCrashIsProvider(text, env.settings.phoneNumber, phones, env.sms, rebind);
    if run.crash.None? {
      AlertRunShape(text, env.settings.phoneNumber, phones, env.sms, rebind);
      CountsAccepted(run, env.settings.phoneNumber, phones, env.sms);
    }
  }

  /** The alert loop over the subscribers' numbers texts, in order, verified and active subscriptions only. */
  lemma RunReachesSubscribers(text: string, smsSubs: seq<SmsSubscription>, env: Env, rebind: bool)
    ensures var subs := SmsRecipients(smsSubs);
      var run := AlertRun(text, env.settings.phoneNumber, Phones(subs), env.sms, rebind);
      && |run.results| <= |run.attempts| <= |subs|
      && (run.crash.None? ==> |run.attempts| == |subs|)
      && forall i :: 0 <= i < |run.attempts| ==>
           && run.attempts[i].to == subs[i].phoneNumber
           && run.attempts[i].from == env.settings.phoneNumber
           && subs[i] in smsSubs && subs[i].verified && subs[i].active
  {
    var subs := SmsRecipients(smsSubs);
    var phones := Phones(subs);
    AlertAttemptsFollowPhones(text, env.settings.phoneNumber, phones, env.sms, rebind);
    assert forall i :: 0 <= i < |subs| ==> phones[i] == subs[i].phoneNumber && subs[i] in subs;
  }

  /**
   * The job as written.  Without a client `send_sms_alert` returns `False`
   * and the comprehension on line 43 raises `TypeError`.
   */
  function AlertTask(childId: string, db: Db, env: Env): AlertJob {
    match FindCase(db.cases, childId)
    case None => AlertJob(ChildNotFound, [], [])
    case Some(c) =>
      var recipients := EmailRecipients(db.alertSubs, c);
      AfterMails(FormatSmsMessage(c), childId, |recipients|, MailAll(AlertMails(c, recipients, env.defaultFrom), env.mail), db.smsSubs, env)
  }

  /** Lines 32-50, once the mail loop `m` is over. */
  function AfterMails(text: string, childId: string, emailsSent: nat, m: MailRun, smsSubs: seq<SmsSubscription>, env: Env): AlertJob {
    if m.failure.Some? then AlertJob(TaskRaised(m.failure.value), m.sent, [])
    else if !HasClient(env) then AlertJob(TaskRaised(TypeError(NotIterable)), m.sent, [])
    else
      var sms := SmsDispatch(text, childId, emailsSent, smsSubs, env, true);
      AlertJob(sms.report, m.sent, sms.attempts)
  }

  /**
   * After the mails: a mail failure or a disabled gateway ends the job with
   * no SMS; otherwise the texts go to the verified, active subscriptions,
   * and only a provider exception can escape.
   */
  lemma AfterMailsShape(text: string, childId: string, emailsSent: nat, m: MailRun, smsSubs: seq<SmsSubscription>, env: Env)
    ensures var job := AfterMails(text, childId, emailsSent, m, smsSubs, env); var subs := SmsRecipients(smsSubs);
      && job.mails == m.sent
      && (m.failure.Some? ==> job.report == TaskRaised(m.failure.value) && job.attempts == [])
      && (m.failure.None? && !HasClient(env) ==> job.report == TaskRaised(TypeError(NotIterable)) && job.attempts == [])
      && |job.attempts| <= |subs|
      && (forall i :: 0 <= i < |job.attempts| ==>
            && job.attempts[i].to == subs[i].phoneNumber
            && job.attempts[i].from == env.settings.phoneNumber
            && subs[i] in smsSubs && subs[i].verified && subs[i].active)
      && (job.report.Report? ==>
            && job.report == Report(emailsSent, job.report.smsSent, childId)
            && job.report.smsSent == |AcceptedCalls(job.attempts, env.sms)|
            && job.report.smsSent <= |job.attempts| == |subs|)
      && (m.failure.None? && job.report.TaskRaised? ==> job.report.error.TypeError? || job.report.error.ProviderError?)
  {
    SmsDispatchShape(text, childId, emailsSent, smsSubs, env, true);
  }

  /** `send_missing_child_alerts(child_id)`. */
  method SendMissingChildAlerts(childId: string, db: Db, env: Env) returns (report: AlertReport, mails: seq<Mail>, attempts: seq<Attempt>)
    ensures AlertJob(report, mails, attempts) == AlertTask(childId, db, env)
  {
    var found := FindCase(db.cases, childId);
    if found.None? {
      return ChildNotFound, [], [];
    }
    var child := found.value;
    var recipients := EmailRecipients(db.alertSubs, child);
    var failure;
    mails, failure := MailEach(AlertMails(child, recipients, env.defaultFrom), env.mail);
    if failure.Some? {
      return TaskRaised(failure.value), mails, [];
    }
    var system := new SmsAlertSystem(env.settings, env.clientRaises);
    var subscribers := SmsRecipients(db.smsSubs);
    var reply;
    reply, attempts := system.SendSmsAlert(Child(child), Phones(subscribers), env.sms);
    match reply {
      case NoClient => report := TaskRaised(TypeError(NotIterable));
      case Raised(e) => report := TaskRaised(e);
      case Results(results) => report := Report(|recipients|, SuccessCount(results), childId);
    }
  }

  /** An id, in canonical UUID text, that no case holds reports "Child not found" and sends nothing. */
  lemma UnknownChildSendsNothing(childId: string, db: Db, env: Env)
    requires forall i :: 0 <= i < |db.cases| ==> db.cases[i].id != childId
    ensures AlertTask(childId, db, env) == AlertJob(ChildNotFound, [], [])
  {
  }

  /**
   * Every mail goes to a matching subscriber, in table order; a completed
   * job mailed every one of them and reports their number as `emails_sent`,
   * whether or not the messages were delivered.
   */
  lemma AlertMailsGoToMatchingSubscribers(childId: string, db: Db, env: Env, c: MissingChild)
    requires FindCase(db.cases, childId) == Some(c)
    ensures var job := AlertTask(childId, db, env); var recipients := EmailRecipients(db.alertSubs, c);
      && |job.mails| <= |recipients|
      && (forall i :: 0 <= i < |job.mails| ==>
            job.mails[i] == AlertMail(c, env.defaultFrom, recipients[i].email) && MatchesCase(recipients[i], c))
      && (job.report.Report? ==> |job.mails| == |recipients| == job.report.emailsSent)
  {
    var recipients := EmailRecipients(db.alertSubs, c);
    var m := MailAll(AlertMails(c, recipients, env.defaultFrom), env.mail);
    var job := AlertTask(childId, db, env);
    assert job == AfterMails(FormatSmsMessage(c), childId, |recipients|, m, db.smsSubs, env);
    MailsInOrder(c, recipients, env.defaultFrom, env.mail);
    AfterMailsShape(FormatSmsMessage(c), childId, |recipients|, m, db.smsSubs, env);
    forall i | 0 <= i < |recipients| ensures MatchesCase(recipients[i], c) {
      assert recipients[i] in recipients;
    }
  }

  /** The alert mails tried go to a prefix of the recipients, in order; all of them when none fails. */
  lemma MailsInOrder(c: MissingChild, recipients: seq<AlertSubscription>, from: string, api: MailApi)
    ensures var m := MailAll(AlertMails(c, recipients, from), api);
      && |m.sent| <= |recipients|
      && (m.failure.None? ==> |m.sent| == |recipients|)
      && forall i :: 0 <= i < |m.sent| ==> m.sent[i] == AlertMail(c, from, recipients[i].email)
  {
    var mails := AlertMails(c, recipients, from);
    MailAllPrefix(mails, api);
    var m := MailAll(mails, api);
    assert forall i :: 0 <= i < |m.sent| ==> m.sent[i] == mails[i];
  }

  /** A mail the transport or the header check refuses ends the job before any SMS. */
  lemma MailFailureStopsSms(childId: string, db: Db, env: Env)
    requires AlertTask(childId, db, env).report.TaskRaised?
    requires AlertTask(childId, db, env).report.error.SmtpError? || AlertTask(childId, db, env).report.error.BadHeaderError?
    ensures AlertTask(childId, db, env).attempts == []
  {
    var c := FindCase(db.cases, childId).value;
    var recipients := EmailRecipients(db.alertSubs, c);
    var m := MailAll(AlertMails(c, recipients, env.defaultFrom), env.mail);
    AfterMailsShape(FormatSmsMessage(c), childId, |recipients|, m, db.smsSubs, env);
  }

  /**
   * A found case whose first or last name holds a line break, with at least
   * one matching subscriber, raises `BadHeaderError` before any mail or text.
   */
  lemma LineBreakInNameStopsAlerts(childId: string, db: Db, env: Env, c: MissingChild)
    requires FindCase(db.cases, childId) == Some(c)
    requires HasLineBreak(c.firstName) || HasLineBreak(c.lastName)
    requires EmailRecipients(db.alertSubs, c) != []
    ensures AlertTask(childId, db, env) == AlertJob(TaskRaised(BadHeaderError("Subject")), [], [])
  {
    var recipients := EmailRecipients(db.alertSubs, c);
    var mails := AlertMails(c, recipients, env.defaultFrom);
    AlertMailsHeaderSafe(c, recipients, env.defaultFrom);
    FirstSubjectRefused(mails, env.mail);
    assert AlertTask(childId, db, env) == AfterMails(FormatSmsMessage(c), childId, |recipients|, MailAll(mails, env.mail), db.smsSubs, env);
  }

  /** The SMS loop only ever raises the provider's own exceptions. */
  lemma {:induction false} AlertCrashIsProvider(text: string, from: string, phones: seq<string>, api: MessagesApi, rebind: bool)
    ensures AlertRun(text, from, phones, api, rebind).crash.Some? ==> AlertRun(text, from, phones, api, rebind).crash.value.ProviderError?
    decreases |phones|
  {
    if phones != [] {
      AlertCrashIsProvider(text, from, phones[..|phones| - 1], api, rebind);
    }
  }

  /**
   * Texts go, in order, to the verified and active SMS subscriptions, from
   * the configured number; `sms_sent` is the number of texts the provider
   * created and never exceeds the number of subscriptions texted.
   */
  lemma AlertTextsGoToActiveSubscribers(childId: string, db: Db, env: Env)
    ensures var job := AlertTask(childId, db, env); var subs := SmsRecipients(db.smsSubs);
      && |job.attempts| <= |subs|
      && (forall i :: 0 <= i < |job.attempts| ==>
            && job.attempts[i].to == subs[i].phoneNumber
            && job.attempts[i].from == env.settings.phoneNumber
            && subs[i] in db.smsSubs && subs[i].verified && subs[i].active)
      && (job.report.Report? ==>
            job.report.smsSent == |AcceptedCalls(job.attempts, env.sms)| && job.report.smsSent <= |job.attempts| == |subs|)
  {
    var found := FindCase(db.cases, childId);
    if found.Some? {
      var c := found.value;
      var recipients := EmailRecipients(db.alertSubs, c);
      var m := MailAll(AlertMails(c, recipients, env.defaultFrom), env.mail);
      AfterMailsShape(FormatSmsMessage(c), childId, |recipients|, m, db.smsSubs, env);
    }
  }

  /** As written: a disabled gateway makes a found case's job raise `TypeError` once the mails are out. */
  lemma DisabledGatewayRaises(childId: string, db: Db, env: Env)
    requires FindCase(db.cases, childId).Some? && !HasClient(env)
    requires !HasLineBreak(FindCase(db.cases, childId).value.firstName) && !HasLineBreak(FindCase(db.cases, childId).value.lastName)
    requires forall m :: env.mail(m)
    ensures AlertTask(childId, db, env).report == TaskRaised(TypeError(NotIterable))
    ensures AlertTask(childId, db, env).attempts == []
  {
    var c := FindCase(db.cases, childId).value;
    var recipients := EmailRecipients(db.alertSubs, c);
    var mails := AlertMails(c, recipients, env.defaultFrom);
    AlertMailsHeaderSafe(c, recipients, env.defaultFrom);
    MailAllPrefix(mails, env.mail);
    AfterMailsShape(FormatSmsMessage(c), childId, |recipients|, MailAll(mails, env.mail), db.smsSubs, env);
  }

  // ---- the corrected alert job ---------------------------------------------

  /**
   * The evidently intended location match: a blank subscription location
   * takes every case, otherwise the case's location must mention it.
   */
  predicate IntendedMatch(s: AlertSubscription, c: MissingChild) {
    s.subscribed && s.verified && (s.location == "" || IContains(c.lastSeenLocation, s.location))
  }

  function IntendedEmailRecipients(subs: seq<AlertSubscription>, c: MissingChild): (r: seq<AlertSubscription>)
    ensures forall s :: s in r <==> s in subs && IntendedMatch(s, c)
  {
    Filter(subs, s => IntendedMatch(s, c))
  }

  /** A subscriber for a city hears about every case last seen at an address in that city. */
  lemma CitySubscriberIsAlerted(subs: seq<AlertSubscription>, c: MissingChild, s: AlertSubscription, k: nat)
    requires s in subs && s.subscribed && s.verified
    requires k + |s.location| <= |c.lastSeenLocation|
    requires Lower(c.lastSeenLocation)[k..k + |s.location|] == Lower(s.location)
    ensures s in IntendedEmailRecipients(subs, c)
  {
    ContainsAt(Lower(c.lastSeenLocation), Lower(s.location), k);
  }

  /** As written, the same subscriber misses the case: "Springfield" does not contain "Main St, Springfield". */
  lemma CitySubscriberMissedAsWritten(c: MissingChild, s: AlertSubscription)
    requires c.lastSeenLocation == "Main St, Springfield"
    requires s.subscribed && s.verified && s.location == "Springfield"
    ensures s !in EmailRecipients([s], c)
    ensures s in IntendedEmailRecipients([s], c)
  {
    assert !MatchesCase(s, c) by {
      var needle := Take(c.lastSeenLocation, 50);
      assert |needle| == 20 && |s.location| == 11;
      assert |Lower(needle)| > |Lower(s.location)|;
    }
    CitySubscriberIsAlerted([s], c, s, 9);
  }

  /**
   * The corrected job: the intended location match, every text carrying the
   * alert, and a disabled gateway reporting no SMS instead of raising.
   */
  function IntendedAlertTask(childId: string, db: Db, env: Env): AlertJob {
    match FindCase(db.cases, childId)
    case None => AlertJob(ChildNotFound, [], [])
    case Some(c) =>
      var recipients := IntendedEmailRecipients(db.alertSubs, c);
      IntendedAfterMails(FormatSmsMessage(c), childId, |recipients|, MailAll(AlertMails(c, recipients, env.defaultFrom), env.mail), db.smsSubs, env)
  }

  function IntendedAfterMails(text: string, childId: string, emailsSent: nat, m: MailRun, smsSubs: seq<SmsSubscription>, env: Env): AlertJob {
    if m.failure.Some? then AlertJob(TaskRaised(m.failure.value), m.sent, [])
    else if !HasClient(env) then AlertJob(Report(emailsSent, 0, childId), m.sent, [])
    else
      var sms := SmsDispatch(text, childId, emailsSent, smsSubs, env, false);
      AlertJob(sms.report, m.sent, sms.attempts)
  }

  /** Corrected: with the gateway disabled the mails still count and `sms_sent` is 0. */
  lemma DisabledGatewayReportsZero(childId: string, db: Db, env: Env, c: MissingChild)
    requires FindCase(db.cases, childId) == Some(c) && !HasClient(env)
    requires !HasLineBreak(c.firstName) && !HasLineBreak(c.lastName)
    requires forall m :: env.mail(m)
    ensures IntendedAlertTask(childId, db, env) == AlertJob(
              Report(|IntendedEmailRecipients(db.alertSubs, c)|, 0, childId),
              AlertMails(c, IntendedEmailRecipients(db.alertSubs, c), env.defaultFrom), [])
  {
    AlertMailsHeaderSafe(c, IntendedEmailRecipients(db.alertSubs, c), env.defaultFrom);
    MailAllPrefix(AlertMails(c, IntendedEmailRecipients(db.alertSubs, c), env.defaultFrom), env.mail);
  }

  /** Corrected: every text carries the alert itself, never a provider object. */
  lemma IntendedTextsCarryAlert(text: string, childId: string, emailsSent: nat, m: MailRun, smsSubs: seq<SmsSubscription>, env: Env)
    ensures var job := IntendedAfterMails(text, childId, emailsSent, m, smsSubs, env);
      forall i :: 0 <= i < |job.attempts| ==> job.attempts[i].body == Text(text)
  {
    IntendedSendsAlwaysText(text, env.settings.phoneNumber, Phones(SmsRecipients(smsSubs)), env.sms);
  }

  // ---- send_daily_digest (lines 56-87) -------------------------------------

  /** Lines 62-65: still missing and reported at or after the cutoff. */
  predicate IsNewCase(c: MissingChild, cutoff: DateTime) {
    Ordinal(c.reportedDate) >= Ordinal(cutoff) && c.status == Missing
  }

  /** On valid timestamps the cutoff test is `reported_date >= yesterday` as Python compares datetimes. */
  lemma NewCaseIffNotEarlier(c: MissingChild, cutoff: DateTime)
    requires Valid(c.reportedDate) && Valid(cutoff)
    ensures IsNewCase(c, cutoff) <==> !Earlier(c.reportedDate, cutoff) && c.status == Missing
  {
    OrdinalIsChronological(c.reportedDate, cutoff);
  }

  /** The digest's cases, newest report first (the model's default ordering). */
  function NewStage(cutoff: DateTime): MissingChild -> bool {
    (c: MissingChild) => IsNewCase(c, cutoff)
  }

  function NewCases(cases: seq<MissingChild>, cutoff: DateTime): (r: seq<MissingChild>)
    ensures forall c :: c in r <==> c in cases && IsNewCase(c, cutoff)
    ensures SortedDesc(r, ReportedKey)
  {
    var sorted := SortDesc(cases, ReportedKey);
    SortDescSameRows(cases, ReportedKey);
    FilterKeepsOrder(sorted, NewStage(cutoff), ReportedKey);
    Filter(sorted, NewStage(cutoff))
  }

  /** The job's return value, or the exception that escapes it. */
  datatype DigestReport = DigestSent(count: nat) | DigestRaised(error: Exception)

  datatype DigestJob = DigestJob(report: DigestReport, attempts: seq<Attempt>)

  /** Lines 78-82: the lookups of the subscriber query. */
  const DigestFilterFields: seq<string> := ["verified", "active", "digest_frequency"]

  /** A lookup on a name the model does not have raises `FieldError` when the query is built. */
  function UnknownField(names: seq<string>, fields: set<string>): (r: Option<string>)
    ensures r.None? <==> forall i :: 0 <= i < |names| ==> names[i] in fields
    ensures r.Some? ==> r.value in names && r.value !in fields
    decreases |names|
  {
    if names == [] then None
    else if names[0] !in fields then Some(names[0])
    else UnknownField(names[1..], fields)
  }

  /**
   * The digest as written: no cases, no query and no sends; otherwise the
   * subscriber query fails on `digest_frequency` before any message.
   * `datetime.now() - timedelta(days=1)` overflows on the first day of year 1.
   */
  function DailyDigest(now: DateTime, db: Db, env: Env): (r: DigestJob)
    requires Valid(now)
    ensures r.attempts == []
  {
    match MinusOneDay(now)
    case None => DigestJob(DigestRaised(OverflowError), [])
    case Some(cutoff) =>
      var cases := NewCases(db.cases, cutoff);
      if |cases| == 0 then DigestJob(DigestSent(0), [])
      else match UnknownField(DigestFilterFields, SmsSubscriptionFields)
        case Some(name) => DigestJob(DigestRaised(FieldError(name)), [])
        case None => DigestJob(DigestSent(|cases|), [])
  }

  /** `send_daily_digest()` at time `now`. */
  method SendDailyDigest(now: DateTime, db: Db, env: Env) returns (report: DigestReport, attempts: seq<Attempt>)
    requires Valid(now)
    ensures DigestJob(report, attempts) == DailyDigest(now, db, env)
  {
    attempts := [];
    var yesterday := MinusOneDay(now);
    if yesterday.None? {
      return DigestRaised(OverflowError), [];
    }
    var cases := NewCases(db.cases, yesterday.value);
    if |cases| > 0 {
      var message := BuildDigestBody(cases);
      var system := new SmsAlertSystem(env.settings, env.clientRaises);
      var unknown := UnknownField(DigestFilterFields, SmsSubscriptionFields);
      if unknown.Some? {
        return DigestRaised(FieldError(unknown.value)), [];
      }
    }
    report := DigestSent(|cases|);
  }

  /** No case reported in the last day: the digest sends nothing and reports 0. */
  lemma QuietDaySendsNothing(now: DateTime, db: Db, env: Env, cutoff: DateTime)
    requires Valid(now) && MinusOneDay(now) == Some(cutoff)
    requires forall c :: c in db.cases ==> !IsNewCase(c, cutoff)
    ensures DailyDigest(now, db, env) == DigestJob(DigestSent(0), [])
  {
    FilterEmpty(SortDesc(db.cases, ReportedKey), NewStage(cutoff));
    SortDescSameRows(db.cases, ReportedKey);
  }

  /** As written: a day with new cases never reaches a subscriber. */
  lemma BusyDayRaisesFieldError(now: DateTime, db: Db, env: Env, cutoff: DateTime)
    requires Valid(now) && MinusOneDay(now) == Some(cutoff)
    requires exists c :: c in db.cases && IsNewCase(c, cutoff)
    ensures DailyDigest(now, db, env) == DigestJob(DigestRaised(FieldError("digest_frequency")), [])
  {
    var c :| c in db.cases && IsNewCase(c, cutoff);
    assert c in NewCases(db.cases, cutoff);
    assert "digest_frequency" !in SmsSubscriptionFields;
    assert UnknownField(DigestFilterFields[2..], SmsSubscriptionFields) == Some("digest_frequency");
  }

  /**
   * The corrected digest: the verified and active subscribers each get the
   * digest text itself, and the job reports the number of new cases.
   */
  function IntendedDailyDigest(now: DateTime, db: Db, env: Env): DigestJob
    requires Valid(now)
  {
    match MinusOneDay(now)
    case None => DigestJob(DigestRaised(OverflowError), [])
    case Some(cutoff) =>
      var cases := NewCases(db.cases, cutoff);
      if |cases| == 0 || !HasClient(env) then DigestJob(DigestSent(|cases|), [])
      else
        var run := AlertRun(DigestText(cases), env.settings.phoneNumber, Phones(SmsRecipients(db.smsSubs)), env.sms, false);
        if run.crash.Some? then DigestJob(DigestRaised(run.crash.value), run.attempts)
        else DigestJob(DigestSent(|cases|), run.attempts)
  }

  /**
   * Corrected: `digest_sent` counts the new cases, a quiet day sends
   * nothing, and every text is the digest sent to an active subscriber.
   */
  lemma IntendedDigestReachesSubscribers(now: DateTime, db: Db, env: Env, cutoff: DateTime)
    requires Valid(now) && MinusOneDay(now) == Some(cutoff)
    ensures var job := IntendedDailyDigest(now, db, env); var cases := NewCases(db.cases, cutoff);
      var subs := SmsRecipients(db.smsSubs);
      && (job.report.DigestSent? ==> job.report.count == |cases|)
      && (|cases| == 0 ==> job.attempts == [])
      && |job.attempts| <= |subs|
      && forall i :: 0 <= i < |job.attempts| ==>
           job.attempts[i].body == Text(DigestText(cases)) && job.attempts[i].to == subs[i].phoneNumber
           && subs[i].verified && subs[i].active
  {
    var cases := NewCases(db.cases, cutoff);
    IntendedSendsAlwaysText(DigestText(cases), env.settings.phoneNumber, Phones(SmsRecipients(db.smsSubs)), env.sms);
    RunReachesSubscribers(DigestText(cases), db.smsSubs, env, false);
  }
}
