/**
 * `send_alert_to_subscribers`: the alert mail the report view sends to
 * every subscribed and verified e-mail subscription.
 */
module SubscriberMail {
  import opened Wrappers
  import opened Errors
  import opened Strings
  import opened Clock
  import opened Models
  import opened Query
  import opened Mailer

  // ---- send_alert_to_subscribers (lines 215-238) -------------------------

  predicate AlertsOn(s: AlertSubscription) {
    s.subscribed && s.verified
  }

  const Indent: string := "            "

  function AlertSubject(c: MissingChild): string {
    "URGENT: Missing Child Alert - " + c.firstName + " " + c.lastName
  }

  /** The triple-quoted body, with the source's twelve-space indentation kept. */
  function AlertBody(c: MissingChild): string {
    "\n"
    + Indent + "Missing Child Alert\n"
    + Indent + "\n"
    + Indent + "Name: " + c.firstName + " " + c.lastName + "\n"
    + Indent + "Age: " + IntToString(c.age) + "\n"
    + Indent + "Last Seen: " + c.lastSeenLocation + "\n"
    + Indent + "Date: " + IsoString(c.lastSeenDate) + "\n"
    + Indent + "\n"
    + Indent + "Description: " + c.distinctiveFeatures + "\n"
    + Indent + "\n"
    + Indent + "If you have any information, please contact authorities immediately.\n"
    + Indent + "\n"
    + Indent + "View details: [Link to case details]\n"
    + Indent
  }

  /** The addresses of the subscriptions, in order. */
  function Emails(subs: seq<AlertSubscription>): (r: seq<string>)
    ensures |r| == |subs|
    ensures forall k :: 0 <= k < |subs| ==> r[k] == subs[k].email
  {
    seq(|subs|, k requires 0 <= k < |subs| => subs[k].email)
  }

  /** One alert per subscribed and verified subscription, in table order. */
  function SubscriberAlerts(c: MissingChild, rows: seq<AlertSubscription>, from: string): seq<Mail> {
    Addressed(AlertSubject(c), AlertBody(c), from, Emails(Filter(rows, AlertsOn)))
  }

  /**
   * The addresses the alerts go to are exactly those of the subscribed and
   * verified subscriptions.
   */
  lemma EnabledEmails(rows: seq<AlertSubscription>)
    ensures forall s :: s in rows && AlertsOn(s) ==> s.email in Emails(Filter(rows, AlertsOn))
    ensures forall e :: e in Emails(Filter(rows, AlertsOn)) ==> exists s :: s in rows && AlertsOn(s) && s.email == e
  {
    var subs := Filter(rows, AlertsOn);
    var to := Emails(subs);
    forall s | s in rows && AlertsOn(s) ensures s.email in to {
      var k :| 0 <= k < |subs| && subs[k] == s;
      assert to[k] == s.email;
    }
    forall e | e in to ensures exists s :: s in rows && AlertsOn(s) && s.email == e {
      var k :| 0 <= k < |to| && to[k] == e;
      assert subs[k] in subs;
    }
  }

  /**
   * Every subscribed and verified subscription is sent the alert, and every
   * alert goes to one of them and names the child in its subject.
   */
  lemma AlertsReachExactlyEnabled(c: MissingChild, rows: seq<AlertSubscription>, from: string)
    ensures forall s :: s in rows && AlertsOn(s) ==>
      Mail(AlertSubject(c), AlertBody(c), from, s.email) in SubscriberAlerts(c, rows, from)
    ensures forall m :: m in SubscriberAlerts(c, rows, from) ==>
      && m.subject == "URGENT: Missing Child Alert - " + c.firstName + " " + c.lastName
      && m.from == from
      && exists s :: s in rows && AlertsOn(s) && s.email == m.to
  {
    EnabledEmails(rows);
    AddressedReaches(AlertSubject(c), AlertBody(c), from, Emails(Filter(rows, AlertsOn)));
  }

  /** The subject holds a line break exactly when one of the names does. */
  lemma SubjectBreaksIffName(c: MissingChild)
    ensures HasLineBreak(AlertSubject(c)) <==> HasLineBreak(c.firstName) || HasLineBreak(c.lastName)
  {
    var head := "URGENT: Missing Child Alert - ";
    assert !HasLineBreak(head) && !HasLineBreak(" ");
    LineBreakConcat(head, c.firstName);
    LineBreakConcat(head + c.firstName, " ");
    LineBreakConcat(head + c.firstName + " ", c.lastName);
  }

  /**
   * Every alert shares the subject, so Django either accepts them all or
   * refuses the very first one.
   */
  lemma SubjectRefusedIffNameBreaks(c: MissingChild, rows: seq<AlertSubscription>, from: string)
    ensures HasLineBreak(AlertSubject(c)) <==> HasLineBreak(c.firstName) || HasLineBreak(c.lastName)
    ensures var mails := SubscriberAlerts(c, rows, from);
      SafePrefix(mails) == if HasLineBreak(AlertSubject(c)) then 0 else |mails|
  {
    SubjectBreaksIffName(c);
    var mails := SubscriberAlerts(c, rows, from);
    var n := SafePrefix(mails);
    if |mails| > 0 {
      assert mails[0].subject == AlertSubject(c);
      assert n < |mails| ==> mails[n].subject == AlertSubject(c);
    }
  }

  /**
   * `send_mail(..., fail_silently=True)` to each enabled subscription: every
   * alert is handed to the transport whatever became of the earlier ones, and
   * `delivered` are those it took; a subject Django refuses raises
   * `BadHeaderError` before the first alert, which `fail_silently` does not
   * catch.
   */
  method SendAlertToSubscribers(c: MissingChild, rows: seq<AlertSubscription>, from: string, api: MailApi)
    returns (attempted: seq<Mail>, delivered: seq<Mail>, failure: Option<Exception>)
    ensures var mails := SubscriberAlerts(c, rows, from);
      if HasLineBreak(AlertSubject(c)) && mails != [] then
        attempted == [] && failure == Some(BadHeaderError("Subject"))
      else
        attempted == mails && failure == None
    ensures delivered == Filter(attempted, api)
  {
    SubjectRefusedIffNameBreaks(c, rows, from);
    attempted, delivered, failure := SendEachSilently(SubscriberAlerts(c, rows, from), api);
  }

}
