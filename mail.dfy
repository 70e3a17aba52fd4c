/**
 * Django's `send_mail` as the notification core uses it: one message to one
 * recipient, handed to a transport that either takes it or raises.  With
 * `fail_silently=False` the first refusal ends a loop of sends; with
 * `fail_silently=True` the transport's refusals are ignored.  Either way a
 * subject holding a line break raises before the transport is reached.
 */
module Mailer {
  import opened Wrappers
  import opened Errors
  import opened Query

  /** One `send_mail` call (a single recipient). */
  datatype Mail = Mail(subject: string, body: string, from: string, to: string)

  /** The mail transport: `false` means `send_mail` raised for that message. */
  type MailApi = Mail -> bool

  /** The same message to each address, in order. */
  function Addressed(subject: string, body: string, from: string, to: seq<string>): (r: seq<Mail>)
    ensures |r| == |to|
    ensures forall k :: 0 <= k < |to| ==> r[k] == Mail(subject, body, from, to[k])
  {
    seq(|to|, k requires 0 <= k < |to| => Mail(subject, body, from, to[k]))
  }

  /** Each address is sent the message, and each message is the same apart from its address. */
  lemma AddressedReaches(subject: string, body: string, from: string, to: seq<string>)
    ensures forall e :: e in to ==> Mail(subject, body, from, e) in Addressed(subject, body, from, to)
    ensures forall m :: m in Addressed(subject, body, from, to) ==>
      m.subject == subject && m.body == body && m.from == from && m.to in to
  {
    var r := Addressed(subject, body, from, to);
    forall e | e in to ensures Mail(subject, body, from, e) in r {
      var k :| 0 <= k < |to| && to[k] == e;
      assert r[k] == Mail(subject, body, from, e);
    }
  }

  /** A text holding a line feed or a carriage return. */
  predicate HasLineBreak(s: string) {
    exists i :: 0 <= i < |s| && (s[i] == '\n' || s[i] == '\r')
  }

  /**
   * Django builds the message before it reaches the transport and refuses a
   * subject that holds a line break with `BadHeaderError`; that exception is
   * not one `fail_silently=True` swallows.
   */
  predicate HeaderSafe(m: Mail) {
    !HasLineBreak(m.subject)
  }

  /** A concatenation holds a line break exactly when one of its parts does. */
  lemma LineBreakConcat(a: string, b: string)
    ensures HasLineBreak(a + b) <==> HasLineBreak(a) || HasLineBreak(b)
  {
    var s := a + b;
    if HasLineBreak(s) {
      var i :| 0 <= i < |s| && (s[i] == '\n' || s[i] == '\r');
      if i < |a| {
        assert a[i] == s[i];
      } else {
        assert b[i - |a|] == s[i];
      }
    }
    if HasLineBreak(a) {
      var i :| 0 <= i < |a| && (a[i] == '\n' || a[i] == '\r');
      assert s[i] == a[i];
    }
    if HasLineBreak(b) {
      var i :| 0 <= i < |b| && (b[i] == '\n' || b[i] == '\r');
      assert s[|a| + i] == b[i];
    }
  }

  /** The messages handed to the transport, and the failure that ended the loop, if any. */
  datatype MailRun = MailRun(sent: seq<Mail>, failure: Option<Exception>)

  /**
   * `send_mail(..., fail_silently=False)` in a loop: the first failure
   * propagates, a refused header before the message reaches the transport.
   */
  function MailAll(mails: seq<Mail>, api: MailApi): (r: MailRun)
    ensures |r.sent| <= |mails|
    ensures r.failure.Some? ==> r.failure.value.SmtpError? || r.failure.value == BadHeaderError("Subject")
    decreases |mails|
  {
    if mails == [] then MailRun([], None)
    else
      var prev := MailAll(mails[..|mails| - 1], api);
      var m := mails[|mails| - 1];
      if prev.failure.Some? then prev
      else if !HeaderSafe(m) then MailRun(prev.sent, Some(BadHeaderError("Subject")))
      else if api(m) then MailRun(prev.sent + [m], None)
      else MailRun(prev.sent + [m], Some(SmtpError(m.to)))
  }

  /**
   * The messages tried are a prefix of the list, and the loop gets through
   * the whole list, without an exception, exactly when every subject is a
   * valid header and the transport takes every message.
   */
  lemma MailAllPrefix(mails: seq<Mail>, api: MailApi)
    ensures var run := MailAll(mails, api);
      && |run.sent| <= |mails| && run.sent == mails[..|run.sent|]
      && (run.failure.None? ==> run.sent == mails)
      && (run.failure.None? <==> forall i :: 0 <= i < |mails| ==> HeaderSafe(mails[i]) && api(mails[i]))
  {
    MailAllSent(mails, api);
    MailAllSucceeds(mails, api);
  }

  lemma {:induction false} MailAllSent(mails: seq<Mail>, api: MailApi)
    ensures var run := MailAll(mails, api);
      run.sent == mails[..|run.sent|] && (run.failure.None? ==> run.sent == mails)
    decreases |mails|
  {
    if mails != [] {
      var prefix := mails[..|mails| - 1];
      MailAllSent(prefix, api);
      var prev := MailAll(prefix, api);
      if prev.failure.Some? || !HeaderSafe(mails[|mails| - 1]) {
        assert mails[..|prev.sent|] == prefix[..|prev.sent|];
      } else {
        assert prefix + [mails[|mails| - 1]] == mails;
      }
    }
  }

  lemma {:induction false} MailAllSucceeds(mails: seq<Mail>, api: MailApi)
    ensures MailAll(mails, api).failure.None? <==> forall i :: 0 <= i < |mails| ==> HeaderSafe(mails[i]) && api(mails[i])
    decreases |mails|
  {
    if mails != [] {
      var prefix := mails[..|mails| - 1];
      MailAllSucceeds(prefix, api);
      assert forall i :: 0 <= i < |prefix| ==> prefix[i] == mails[i];
    }
  }

  /**
   * A loop that fails either stops at its last message, which the transport
   * refused, naming that recipient, or stops before the first message whose
   * subject is refused; every message handed over before it went through.
   */
  lemma MailAllStops(mails: seq<Mail>, api: MailApi)
    ensures var run := MailAll(mails, api);
      && (run.failure.Some? && run.failure.value.SmtpError? ==>
            && |run.sent| > 0
            && HeaderSafe(run.sent[|run.sent| - 1]) && !api(run.sent[|run.sent| - 1])
            && run.failure == Some(SmtpError(run.sent[|run.sent| - 1].to))
            && forall i :: 0 <= i < |run.sent| - 1 ==> HeaderSafe(run.sent[i]) && api(run.sent[i]))
      && (run.failure == Some(BadHeaderError("Subject")) ==>
            && |run.sent| < |mails| && !HeaderSafe(mails[|run.sent|])
            && forall i :: 0 <= i < |run.sent| ==> HeaderSafe(run.sent[i]) && api(run.sent[i]))
  {
    MailAllStopsAtRefusal(mails, api);
    MailAllStopsAtHeader(mails, api);
  }

  lemma {:induction false} MailAllStopsAtRefusal(mails: seq<Mail>, api: MailApi)
    ensures var run := MailAll(mails, api);
      run.failure.Some? && run.failure.value.SmtpError? ==>
        && |run.sent| > 0
        && HeaderSafe(run.sent[|run.sent| - 1]) && !api(run.sent[|run.sent| - 1])
        && run.failure == Some(SmtpError(run.sent[|run.sent| - 1].to))
        && forall i :: 0 <= i < |run.sent| - 1 ==> HeaderSafe(run.sent[i]) && api(run.sent[i])
    decreases |mails|
  {
    if mails != [] {
      var prefix := mails[..|mails| - 1];
      MailAllStopsAtRefusal(prefix, api);
      if MailAll(prefix, api).failure.None? {
        MailAllPrefix(prefix, api);
      }
    }
  }

  lemma {:induction false} MailAllStopsAtHeader(mails: seq<Mail>, api: MailApi)
    ensures var run := MailAll(mails, api);
      run.failure == Some(BadHeaderError("Subject")) ==>
        && |run.sent| < |mails| && !HeaderSafe(mails[|run.sent|])
        && forall i :: 0 <= i < |run.sent| ==> HeaderSafe(run.sent[i]) && api(run.sent[i])
    decreases |mails|
  {
    if mails != [] {
      var prefix := mails[..|mails| - 1];
      MailAllStopsAtHeader(prefix, api);
      var prev := MailAll(prefix, api);
      if prev.failure.Some? {
        MailAllSent(prefix, api);
        assert prev.failure == Some(BadHeaderError("Subject")) ==> mails[|prev.sent|] == prefix[|prev.sent|];
      } else {
        MailAllPrefix(prefix, api);
      }
    }
  }

  /** A refused first subject ends the loop before anything reaches the transport. */
  lemma FirstSubjectRefused(mails: seq<Mail>, api: MailApi)
    requires |mails| > 0 && !HeaderSafe(mails[0])
    ensures MailAll(mails, api) == MailRun([], Some(BadHeaderError("Subject")))
  {
    assert mails[..1][..0] == [];
    MailCrashSticks(mails, api, 1);
  }

  /** The mail loop, one message after another. */
  method MailEach(mails: seq<Mail>, api: MailApi) returns (sent: seq<Mail>, failure: Option<Exception>)
    ensures MailRun(sent, failure) == MailAll(mails, api)
  {
    sent := [];
    var i := 0;
    while i < |mails|
      invariant 0 <= i <= |mails|
      invariant MailAll(mails[..i], api) == MailRun(sent, None)
    {
      assert mails[..i + 1][..i] == mails[..i];
      if !HeaderSafe(mails[i]) {
        MailCrashSticks(mails, api, i + 1);
        return sent, Some(BadHeaderError("Subject"));
      }
      sent := sent + [mails[i]];
      if !api(mails[i]) {
        MailCrashSticks(mails, api, i + 1);
        return sent, Some(SmtpError(mails[i].to));
      }
      i := i + 1;
    }
    assert mails[..i] == mails;
    failure := None;
  }

  /** The number of leading messages whose subjects Django accepts. */
  function SafePrefix(mails: seq<Mail>): (n: nat)
    ensures n <= |mails|
    ensures forall i :: 0 <= i < n ==> HeaderSafe(mails[i])
    ensures n < |mails| ==> !HeaderSafe(mails[n])
  {
    if mails == [] || !HeaderSafe(mails[0]) then 0 else 1 + SafePrefix(mails[1..])
  }

  /**
   * `send_mail(..., fail_silently=True)` in a loop: every message is handed
   * to the transport whatever became of the earlier ones, and `delivered`
   * are those it took; only a refused subject escapes, and it ends the loop.
   */
  method SendEachSilently(mails: seq<Mail>, api: MailApi)
    returns (attempted: seq<Mail>, delivered: seq<Mail>, failure: Option<Exception>)
    ensures attempted == mails[..SafePrefix(mails)]
    ensures delivered == Filter(attempted, api)
    ensures failure == if SafePrefix(mails) < |mails| then Some(BadHeaderError("Subject")) else None
  {
    attempted, delivered := [], [];
    var i := 0;
    while i < |mails|
      invariant 0 <= i <= SafePrefix(mails)
      invariant attempted == mails[..i]
      invariant delivered == Filter(mails[..i], api)
    {
      if !HeaderSafe(mails[i]) {
        return attempted, delivered, Some(BadHeaderError("Subject"));
      }
      assert mails[..i + 1] == mails[..i] + [mails[i]];
      FilterSnoc(mails[..i], mails[i], api);
      attempted := attempted + [mails[i]];
      if api(mails[i]) {
        delivered := delivered + [mails[i]];
      }
      i := i + 1;
    }
    assert mails[..i] == mails;
    failure := None;
  }

  lemma {:induction false} MailCrashSticks(mails: seq<Mail>, api: MailApi, i: nat)
    requires i <= |mails| && MailAll(mails[..i], api).failure.Some?
    ensures MailAll(mails, api) == MailAll(mails[..i], api)
    decreases |mails|
  {
    if i < |mails| {
      var shorter := mails[..|mails| - 1];
      assert shorter[..i] == mails[..i];
      MailCrashSticks(shorter, api, i);
    } else {
      assert mails[..i] == mails;
    }
  }

}
