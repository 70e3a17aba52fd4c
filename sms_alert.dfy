/**
 * The SMS gateway `SMSAlertSystem`: a Twilio client created from two
 * credentials (or none), the alert text with its 1600-character cap, the
 * per-number alert loop, the sighting loop over subscribers, and the two
 * verification calls.  The provider's three endpoints are function
 * parameters that answer each request.
 */
module SmsAlert {
  import opened Wrappers
  import opened Errors
  import opened Strings
  import opened Clock
  import opened Models
  import opened Query

  /** Twilio's maximum message length (line 101). */
  const SmsLimit: nat := 1600

  /** The Django settings the gateway reads. */
  datatype Settings = Settings(accountSid: string, authToken: string, phoneNumber: string, verifyServiceSid: string)

  /** A constructed `twilio.rest.Client`. */
  datatype Client = Client(accountSid: string, authToken: string)

  /**
   * The `body` passed to `messages.create`: the alert text, or the message
   * object an earlier call returned (line 32 rebinds `message` to it).
   */
  datatype Body = Text(text: string) | MessageObject(sid: string)

  /** `messages.create`: a created message, a `TwilioRestException`, or any other exception. */
  datatype SendOutcome = Created(sid: string) | RestError(message: string) | OtherError(message: string)

  /** The provider's message endpoint, given `body`, `from_` and `to`. */
  type MessagesApi = (Body, string, string) -> SendOutcome

  /** A verification request or check: its `status`, a `TwilioRestException`, or any other exception. */
  datatype VerifyReply = Replied(status: string) | VerifyRestError(message: string) | VerifyOtherError(message: string)

  /** `verify.services(sid).verifications.create(to=..., channel='sms')`. */
  type VerificationsApi = (string, string) -> VerifyReply

  /** `verify.services(sid).verification_checks.create(to=..., code=...)`. */
  type ChecksApi = (string, string, string) -> VerifyReply

  /** One call of `messages.create`. */
  datatype Attempt = Attempt(body: Body, from: string, to: string)

  /** `{'phone', 'success', 'message_sid' | 'error'}`; `detail` holds the sid or the error text. */
  datatype SendResult = SendResult(phone: string, success: bool, detail: string)

  /** `{'subscriber', 'success', 'message_sid' | 'error'}`. */
  datatype SubscriberResult = SubscriberResult(subscriber: nat, success: bool, detail: string)

  /** What a send method gives back: `False` without a client, the result list, or an escaping exception. */
  datatype Reply<R> = NoClient | Results(results: seq<R>) | Raised(error: Exception)

  /** `send_verification_sms` / `verify_sms_code`: a boolean or an escaping exception. */
  datatype Verdict = Verdict(ok: bool) | VerdictRaised(error: Exception)

  /** The `child` argument of `send_sms_alert`; the digest task passes a plain string instead. */
  datatype AlertSubject = Child(child: MissingChild) | PlainText(text: string)

  /** A send loop after some prefix of its recipients: calls made, results, current body, escaped exception. */
  datatype Run<R> = Run(attempts: seq<Attempt>, results: seq<R>, body: Body, crash: Option<Exception>)

  // ---- the alert text (lines 85-104) -------------------------------------

  const AbductionWarning: string := "\U{26A0}\U{FE0F} SUSPECTED ABDUCTION \U{26A0}\U{FE0F}\n"

  function AlertHead(c: MissingChild): string {
    "\U{1F6A8} MISSING CHILD ALERT \U{1F6A8}\n\n"
      + "Name: " + c.firstName + " " + c.lastName + "\n"
      + "Age: " + IntToString(c.age) + "\n"
      + "Missing since: " + FormatMinute(c.lastSeenDate) + "\n"
      + "Last seen: " + c.lastSeenLocation + "\n"
  }

  function CaseLine(c: MissingChild): string {
    "Case #" + c.caseNumber + "\n"
  }

  function AlertTail(c: MissingChild): string {
    "\nIf seen, call 911 immediately.\n" + CaseLine(c) + "More info: [Your Website URL]/case/" + c.id
  }

  /** The text before the length check. */
  function RawSmsMessage(c: MissingChild): (r: string)
    ensures |AlertHead(c)| + |AlertTail(c)| <= |r|
    ensures r[..|AlertHead(c)|] == AlertHead(c)
    ensures r[|r| - |AlertTail(c)|..] == AlertTail(c)
  {
    AlertHead(c) + (if c.isAbducted then AbductionWarning else "") + AlertTail(c)
  }

  /** `_format_sms_message`: the text, cut to 1597 characters plus `"..."` when longer than 1600. */
  function FormatSmsMessage(c: MissingChild): (r: string)
    ensures |r| <= SmsLimit
    ensures |RawSmsMessage(c)| <= SmsLimit ==> r == RawSmsMessage(c)
    ensures |RawSmsMessage(c)| > SmsLimit ==> |r| == SmsLimit && r == RawSmsMessage(c)[..SmsLimit - 3] + "..."
  {
    var m := RawSmsMessage(c);
    if |m| > 1600 then m[..1597] + "..." else m
  }

  /** A segment spliced in or left out between two parts is found at its place exactly when present. */
  lemma SpliceIff(h: string, w: string, t: string, present: bool)
    requires |w| > 0 && |t| > 0 && t[0] != w[0]
    ensures var raw := h + (if present then w else "") + t;
      (|h| + |w| <= |raw| && raw[|h|..|h| + |w|] == w) <==> present
  {
    var raw := h + (if present then w else "") + t;
    if present {
      assert raw == h + w + t;
      assert raw[|h|..|h| + |w|] == w;
    } else {
      assert raw == h + t;
      assert raw[|h|] == t[0];
      if |h| + |w| <= |raw| {
        assert raw[|h|..|h| + |w|][0] == raw[|h|];
      }
    }
  }

  /**
   * The abduction line follows the fixed head exactly when the case is
   * flagged: otherwise the tail, which starts with a line break, is there.
   */
  lemma AbductionLineIff(c: MissingChild)
    ensures var raw := RawSmsMessage(c); var h := |AlertHead(c)|;
      (h + |AbductionWarning| <= |raw| && raw[h..h + |AbductionWarning|] == AbductionWarning) <==> c.isAbducted
  {
    var tail := AlertTail(c);
    assert tail[0] == '\n';
    assert AbductionWarning[0] == '\U{26A0}';
    SpliceIff(AlertHead(c), AbductionWarning, tail, c.isAbducted);
  }

  /** The untruncated text always carries `"Case #"` and the case number. */
  lemma CaseNumberInMessage(c: MissingChild)
    ensures Contains(RawSmsMessage(c), "Case #" + c.caseNumber)
  {
    FoundInside(AlertHead(c) + (if c.isAbducted then AbductionWarning else ""), "\nIf seen, call 911 immediately.\n",
                "Case #" + c.caseNumber, "\n", "More info: [Your Website URL]/case/", c.id);
  }

  /** A string placed inside a concatenation is contained in it. */
  lemma FoundInside(p: string, q: string, n: string, r: string, s: string, t: string)
    ensures Contains(p + (((q + (n + r)) + s) + t), n)
  {
    var whole := p + (((q + (n + r)) + s) + t);
    assert whole[|p| + |q|..|p| + |q| + |n|] == n;
    ContainsAt(whole, n, |p| + |q|);
  }

  /** When the head and the warning fit before the cut, the sent text keeps the iff. */
  lemma AbductionLineSurvivesCut(c: MissingChild)
    requires |AlertHead(c)| + |AbductionWarning| <= SmsLimit - 3
    ensures var r := FormatSmsMessage(c); var h := |AlertHead(c)|;
      (h + |AbductionWarning| <= |r| && r[h..h + |AbductionWarning|] == AbductionWarning) <==> c.isAbducted
  {
    AbductionLineIff(c);
    var raw := RawSmsMessage(c);
    if |raw| > SmsLimit {
      CutKeepsWindow(raw, FormatSmsMessage(c), |AlertHead(c)|, |AbductionWarning|, SmsLimit - 3);
    }
  }

  /** A text that starts like another keeps its windows inside the shared start. */
  lemma CutKeepsWindow(raw: string, r: string, at: nat, len: nat, keep: nat)
    requires keep <= |raw| && keep <= |r| && r[..keep] == raw[..keep] && at + len <= keep
    ensures r[at..at + len] == raw[at..at + len]
  {
    assert r[at..at + len] == r[..keep][at..at + len];
    assert raw[at..at + len] == raw[..keep][at..at + len];
  }

  // ---- the alert loop (lines 27-51) --------------------------------------

  /**
   * One turn of the loop over phone numbers.  With `rebind` (the code as
   * written) a successful call replaces the body by the returned object.
   */
  function AlertStep(prev: Run<SendResult>, from: string, phone: string, api: MessagesApi, rebind: bool): Run<SendResult> {
    if prev.crash.Some? then prev
    else
      var attempts := prev.attempts + [Attempt(prev.body, from, phone)];
      match api(prev.body, from, phone)
      case Created(sid) =>
        Run(attempts, prev.results + [SendResult(phone, true, sid)], if rebind then MessageObject(sid) else prev.body, None)
      case RestError(e) =>
        Run(attempts, prev.results + [SendResult(phone, false, e)], prev.body, None)
      case OtherError(e) =>
        Run(attempts, prev.results, prev.body, Some(ProviderError(e)))
  }

  /** The loop after the numbers in `phones`, starting from the alert text. */
  function AlertRun(text: string, from: string, phones: seq<string>, api: MessagesApi, rebind: bool): Run<SendResult>
    decreases |phones|
  {
    if phones == [] then Run([], [], Text(text), None)
    else AlertStep(AlertRun(text, from, phones[..|phones| - 1], api, rebind), from, phones[|phones| - 1], api, rebind)
  }

  /** Once an exception escapes, later numbers change nothing (the loop has been left). */
  lemma {:induction false} AlertCrashSticks(text: string, from: string, phones: seq<string>, api: MessagesApi, rebind: bool, i: nat)
    requires i <= |phones| && AlertRun(text, from, phones[..i], api, rebind).crash.Some?
    ensures AlertRun(text, from, phones, api, rebind) == AlertRun(text, from, phones[..i], api, rebind)
    decreases |phones|
  {
    if i < |phones| {
      var shorter := phones[..|phones| - 1];
      assert shorter[..i] == phones[..i];
      AlertCrashSticks(text, from, shorter, api, rebind, i);
    } else {
      assert phones[..i] == phones;
    }
  }

  /**
   * The calls of a run went to a prefix of `phones`, in order, from
   * `from` (all of them unless an exception escaped), with at most one
   * result per call.
   */
  predicate CalledInOrder<R>(run: Run<R>, from: string, phones: seq<string>) {
    && |run.results| <= |run.attempts| <= |phones|
    && (run.crash.None? ==> |run.attempts| == |phones|)
    && forall i :: 0 <= i < |run.attempts| ==> run.attempts[i].to == phones[i] && run.attempts[i].from == from
  }

  /** One more turn keeps the calls in order. */
  lemma AlertStepInOrder(prev: Run<SendResult>, from: string, phones: seq<string>, phone: string, api: MessagesApi, rebind: bool)
    requires CalledInOrder(prev, from, phones)
    ensures CalledInOrder(AlertStep(prev, from, phone, api, rebind), from, phones + [phone])
  {
    if prev.crash.None? {
      var next := AlertStep(prev, from, phone, api, rebind);
      var all := phones + [phone];
      assert next.attempts == prev.attempts + [Attempt(prev.body, from, phone)];
      forall i | 0 <= i < |prev.attempts| ensures next.attempts[i] == prev.attempts[i] && all[i] == phones[i] {
      }
    }
  }

  /** Whatever happens, the calls go to a prefix of the numbers, in order, from the configured sender. */
  lemma {:induction false} AlertAttemptsFollowPhones(text: string, from: string, phones: seq<string>, api: MessagesApi, rebind: bool)
    ensures CalledInOrder(AlertRun(text, from, phones, api, rebind), from, phones)
    decreases |phones|
  {
    if phones != [] {
      var prefix := phones[..|phones| - 1];
      AlertAttemptsFollowPhones(text, from, prefix, api, rebind);
      AlertStepInOrder(AlertRun(text, from, prefix, api, rebind), from, prefix, phones[|phones| - 1], api, rebind);
      assert prefix + [phones[|phones| - 1]] == phones;
    }
  }

  /**
   * A run that called the provider once for each of `phones`, in order,
   * from `from`, with one result per call recording that call's outcome.
   */
  predicate AnsweredAll(run: Run<SendResult>, from: string, phones: seq<string>, api: MessagesApi) {
    && |run.results| == |phones| && |run.attempts| == |phones|
    && forall i :: 0 <= i < |phones| ==>
         && run.results[i].phone == phones[i]
         && run.attempts[i].to == phones[i] && run.attempts[i].from == from
         && (run.results[i].success <==> api(run.attempts[i].body, from, phones[i]) == Created(run.results[i].detail))
         && (!run.results[i].success <==> api(run.attempts[i].body, from, phones[i]) == RestError(run.results[i].detail))
  }

  /** A turn that does not raise adds one call and its result. */
  lemma AlertStepAnswers(prev: Run<SendResult>, from: string, phones: seq<string>, phone: string, api: MessagesApi, rebind: bool)
    requires prev.crash.None? && AnsweredAll(prev, from, phones, api)
    requires AlertStep(prev, from, phone, api, rebind).crash.None?
    ensures AnsweredAll(AlertStep(prev, from, phone, api, rebind), from, phones + [phone], api)
  {
    var next := AlertStep(prev, from, phone, api, rebind);
    var all := phones + [phone];
    assert next.attempts == prev.attempts + [Attempt(prev.body, from, phone)];
    assert |next.results| == |all|;
    assert next.results[|phones|].phone == phone;
    forall i | 0 <= i < |phones|
      ensures next.results[i] == prev.results[i] && next.attempts[i] == prev.attempts[i] && all[i] == phones[i]
    {
    }
  }

  /**
   * Without an escaping exception there is one call and one result per
   * number, in input order, each result recording that call's outcome.
   */
  lemma {:induction false} AlertRunShape(text: string, from: string, phones: seq<string>, api: MessagesApi, rebind: bool)
    requires AlertRun(text, from, phones, api, rebind).crash.None?
    ensures AnsweredAll(AlertRun(text, from, phones, api, rebind), from, phones, api)
    decreases |phones|
  {
    if phones != [] {
      var prefix := phones[..|phones| - 1];
      var prev := AlertRun(text, from, prefix, api, rebind);
      assert prev.crash.None?;
      AlertRunShape(text, from, prefix, api, rebind);
      AlertStepAnswers(prev, from, prefix, phones[|phones| - 1], api, rebind);
      assert prefix + [phones[|phones| - 1]] == phones;
    }
  }

  /** Without an escaping exception, the run over a prefix of the numbers is the start of the whole run. */
  lemma {:induction false} AlertRunPrefix(text: string, from: string, phones: seq<string>, api: MessagesApi, rebind: bool, j: nat)
    requires j <= |phones| && AlertRun(text, from, phones, api, rebind).crash.None?
    ensures AlertRun(text, from, phones[..j], api, rebind).crash.None?
    ensures |AlertRun(text, from, phones, api, rebind).attempts| == |phones|
    ensures AlertRun(text, from, phones[..j], api, rebind).attempts == AlertRun(text, from, phones, api, rebind).attempts[..j]
    decreases |phones|
  {
    AlertAttemptsFollowPhones(text, from, phones, api, rebind);
    if j < |phones| {
      var prefix := phones[..|phones| - 1];
      assert prefix[..j] == phones[..j];
      assert AlertRun(text, from, prefix, api, rebind).crash.None?;
      AlertRunPrefix(text, from, prefix, api, rebind, j);
    } else {
      assert phones[..j] == phones;
    }
  }

  /** The call for number `i` uses the body the loop holds after the first `i` numbers. */
  lemma AlertRunEntry(text: string, from: string, phones: seq<string>, api: MessagesApi, rebind: bool, i: nat)
    requires i < |phones| && AlertRun(text, from, phones, api, rebind).crash.None?
    ensures |AlertRun(text, from, phones, api, rebind).attempts| == |phones|
    ensures AlertRun(text, from, phones[..i], api, rebind).crash.None?
    ensures AlertRun(text, from, phones, api, rebind).attempts[i].body == AlertRun(text, from, phones[..i], api, rebind).body
    ensures AlertRun(text, from, phones[..i + 1], api, rebind)
            == AlertStep(AlertRun(text, from, phones[..i], api, rebind), from, phones[i], api, rebind)
  {
    AlertRunPrefix(text, from, phones, api, rebind, i + 1);
    AlertRunPrefix(text, from, phones, api, rebind, i);
    assert phones[..i + 1][..i] == phones[..i];
    var prev := AlertRun(text, from, phones[..i], api, rebind);
    var next := AlertRun(text, from, phones[..i + 1], api, rebind);
    assert next == AlertStep(prev, from, phones[i], api, rebind);
    assert next.attempts[i] == Attempt(prev.body, from, phones[i]);
  }

  /** The first call always carries the alert text. */
  lemma FirstSendUsesText(text: string, from: string, phones: seq<string>, api: MessagesApi, rebind: bool)
    requires |phones| > 0 && AlertRun(text, from, phones, api, rebind).crash.None?
    ensures AlertRun(text, from, phones, api, rebind).attempts[0].body == Text(text)
  {
    AlertRunEntry(text, from, phones, api, rebind, 0);
    assert phones[..0] == [];
  }

  /**
   * As written (line 32), the call after a successful one carries the
   * object that call returned; after a failed one the body is kept.
   */
  lemma NextBodyAsWritten(text: string, from: string, phones: seq<string>, api: MessagesApi, i: nat)
    requires i + 1 < |phones| && AlertRun(text, from, phones, api, true).crash.None?
    ensures var run := AlertRun(text, from, phones, api, true);
      && |run.results| == |phones| && |run.attempts| == |phones|
      && (run.results[i].success ==> run.attempts[i + 1].body == MessageObject(run.results[i].detail))
      && (!run.results[i].success ==> run.attempts[i + 1].body == run.attempts[i].body)
  {
    AlertRunShape(text, from, phones, api, true);
    AlertRunEntry(text, from, phones, api, true, i);
    AlertRunEntry(text, from, phones, api, true, i + 1);
  }

  /** Two numbers and a provider that accepts everything: the second text is not the alert. */
  lemma SecondSendUsesProviderObject(text: string, from: string, p1: string, p2: string)
    ensures var api: MessagesApi := (b, f, t) => Created("SM1");
      var run := AlertRun(text, from, [p1, p2], api, true);
      && run.crash.None? && |run.attempts| == 2
      && run.attempts[0].body == Text(text)
      && run.attempts[1].body == MessageObject("SM1") && run.attempts[1].body != Text(text)
  {
    var api: MessagesApi := (b, f, t) => Created("SM1");
    assert [p1, p2][..1] == [p1];
    assert [p1][..0] == [];
    var r0 := AlertRun(text, from, [], api, true);
    assert r0 == Run([], [], Text(text), None);
    var r1 := AlertRun(text, from, [p1], api, true);
    assert r1 == AlertStep(r0, from, p1, api, true);
    assert r1 == Run([Attempt(Text(text), from, p1)], [SendResult(p1, true, "SM1")], MessageObject("SM1"), None);
    var r2 := AlertRun(text, from, [p1, p2], api, true);
    assert r2 == AlertStep(r1, from, p2, api, true);
  }

  /** With the body kept apart from the returned object, every call carries the alert text. */
  lemma {:induction false} IntendedSendsAlwaysText(text: string, from: string, phones: seq<string>, api: MessagesApi)
    ensures var run := AlertRun(text, from, phones, api, false);
      run.body == Text(text) && forall i :: 0 <= i < |run.attempts| ==> run.attempts[i].body == Text(text)
    decreases |phones|
  {
    if phones != [] {
      IntendedSendsAlwaysText(text, from, phones[..|phones| - 1], api);
    }
  }

  /** A `TwilioRestException` for one number never stops the remaining ones. */
  lemma RestErrorsDoNotStop(text: string, from: string, phones: seq<string>, api: MessagesApi, rebind: bool)
    requires forall b, t :: !api(b, from, t).OtherError?
    ensures AlertRun(text, from, phones, api, rebind).crash.None?
    ensures |AlertRun(text, from, phones, api, rebind).results| == |phones|
    decreases |phones|
  {
    if phones != [] {
      RestErrorsDoNotStop(text, from, phones[..|phones| - 1], api, rebind);
    }
    AlertRunShape(text, from, phones, api, rebind);
  }

  // ---- the sighting loop (lines 106-139) ---------------------------------

  const SightingHeader: string := "\U{1F4CD} SIGHTING UPDATE \U{1F6A8}\n\n"

  function SightingMessage(c: MissingChild, u: LocationUpdate): string {
    SightingHeader
      + c.firstName + " " + c.lastName + "\n"
      + "Reported at: " + FormatMinute(u.sightingTime) + "\n"
      + "Location: " + u.location + "\n"
      + "Reported by: " + u.reportedBy + "\n"
      + "\nIf in area, stay alert.\nCall 911 if sighted."
  }

  /**
   * A subscriber object as the loop sees it: `phone_verified` and
   * `sms_alerts` are attributes that may be missing (`None` here).
   */
  datatype LocationSubscriber = LocationSubscriber(id: nat, phoneNumber: string, phoneVerified: Option<bool>, smsAlerts: Option<bool>)

  datatype Gate = Skip | Send | NoAttribute(name: string)

  /** `subscriber.phone_verified and subscriber.sms_alerts`, evaluated left to right. */
  function SubscriberGate(s: LocationSubscriber): Gate {
    match s.phoneVerified
    case None => NoAttribute("phone_verified")
    case Some(false) => Skip
    case Some(true) =>
      match s.smsAlerts
      case None => NoAttribute("sms_alerts")
      case Some(a) => if a then Send else Skip
  }

  /** An `SMSSubscription` row seen as such an object: it has neither attribute. */
  function FromSmsSubscription(s: SmsSubscription, id: nat): (l: LocationSubscriber)
    ensures SubscriberGate(l) == NoAttribute("phone_verified")
  {
    assert "phone_verified" !in SmsSubscriptionFields && "sms_alerts" !in SmsSubscriptionFields;
    LocationSubscriber(id, s.phoneNumber, None, None)
  }

  function SightingStep(prev: Run<SubscriberResult>, from: string, s: LocationSubscriber, api: MessagesApi): Run<SubscriberResult> {
    if prev.crash.Some? then prev
    else match SubscriberGate(s)
      case Skip => prev
      case NoAttribute(n) => prev.(crash := Some(AttributeError(n)))
      case Send =>
        var attempts := prev.attempts + [Attempt(prev.body, from, s.phoneNumber)];
        match api(prev.body, from, s.phoneNumber)
        case Created(sid) => prev.(attempts := attempts, results := prev.results + [SubscriberResult(s.id, true, sid)])
        case RestError(e) => prev.(attempts := attempts, results := prev.results + [SubscriberResult(s.id, false, e)])
        case OtherError(e) => prev.(attempts := attempts, crash := Some(ProviderError(e)))
  }

  function SightingRun(text: string, from: string, subs: seq<LocationSubscriber>, api: MessagesApi): Run<SubscriberResult>
    decreases |subs|
  {
    if subs == [] then Run([], [], Text(text), None)
    else SightingStep(SightingRun(text, from, subs[..|subs| - 1], api), from, subs[|subs| - 1], api)
  }

  lemma {:induction false} SightingCrashSticks(text: string, from: string, subs: seq<LocationSubscriber>, api: MessagesApi, i: nat)
    requires i <= |subs| && SightingRun(text, from, subs[..i], api).crash.Some?
    ensures SightingRun(text, from, subs, api) == SightingRun(text, from, subs[..i], api)
    decreases |subs|
  {
    if i < |subs| {
      var shorter := subs[..|subs| - 1];
      assert shorter[..i] == subs[..i];
      SightingCrashSticks(text, from, shorter, api, i);
    } else {
      assert subs[..i] == subs;
    }
  }

  predicate Wanted(s: LocationSubscriber) {
    SubscriberGate(s).Send?
  }

  /**
   * A sighting run that sent the text once to each of `wanted`, in order,
   * with one result per send recording its outcome.
   */
  predicate SentTo(run: Run<SubscriberResult>, text: string, from: string, wanted: seq<LocationSubscriber>, api: MessagesApi) {
    && run.body == Text(text)
    && |run.results| == |wanted| && |run.attempts| == |wanted|
    && forall i :: 0 <= i < |wanted| ==>
         && run.results[i].subscriber == wanted[i].id
         && run.attempts[i] == Attempt(Text(text), from, wanted[i].phoneNumber)
         && (run.results[i].success <==> api(Text(text), from, wanted[i].phoneNumber) == Created(run.results[i].detail))
         && (!run.results[i].success <==> api(Text(text), from, wanted[i].phoneNumber) == RestError(run.results[i].detail))
  }

  /** One more subscriber extends the sends by that subscriber exactly when both flags are true. */
  lemma SightingStepSends(prev: Run<SubscriberResult>, text: string, from: string, s: LocationSubscriber,
                          api: MessagesApi, before: seq<LocationSubscriber>)
    requires prev.crash.None? && SentTo(prev, text, from, before, api)
    requires SightingStep(prev, from, s, api).crash.None?
    ensures SentTo(SightingStep(prev, from, s, api), text, from, before + (if Wanted(s) then [s] else []), api)
  {
    if Wanted(s) {
      var next := SightingStep(prev, from, s, api);
      var outcome := api(Text(text), from, s.phoneNumber);
      var w := before + [s];
      assert next.attempts == prev.attempts + [Attempt(Text(text), from, s.phoneNumber)];
      assert |next.results| == |w|;
      assert next.results[|before|].subscriber == s.id;
      assert next.results[|before|].success <==> outcome == Created(next.results[|before|].detail);
      forall i | 0 <= i < |before|
        ensures next.results[i] == prev.results[i] && next.attempts[i] == prev.attempts[i] && w[i] == before[i]
      {
      }
    }
  }

  /**
   * Without an escaping exception there is exactly one call and one result
   * per subscriber with both flags true, in order, all with the same text;
   * the other subscribers get neither.
   */
  lemma {:induction false} SightingRunShape(text: string, from: string, subs: seq<LocationSubscriber>, api: MessagesApi)
    requires SightingRun(text, from, subs, api).crash.None?
    ensures SentTo(SightingRun(text, from, subs, api), text, from, Filter(subs, Wanted), api)
    decreases |subs|
  {
    if subs != [] {
      var prefix := subs[..|subs| - 1];
      var last := subs[|subs| - 1];
      assert subs == prefix + [last];
      FilterSnoc(prefix, last, Wanted);
      var prev := SightingRun(text, from, prefix, api);
      assert SightingRun(text, from, subs, api) == SightingStep(prev, from, last, api);
      assert prev.crash.None?;
      SightingRunShape(text, from, prefix, api);
      SightingStepSends(prev, text, from, last, api, Filter(prefix, Wanted));
    }
  }

  /** Any subscriber lacking `phone_verified` makes the loop raise `AttributeError` there. */
  lemma {:induction false} MissingAttributeRaises(text: string, from: string, subs: seq<LocationSubscriber>, api: MessagesApi)
    requires |subs| > 0 && SubscriberGate(subs[0]) == NoAttribute("phone_verified")
    ensures SightingRun(text, from, subs, api).crash == Some(AttributeError("phone_verified"))
    ensures SightingRun(text, from, subs, api).attempts == []
  {
    assert subs[..1][..0] == [];
    SightingCrashSticks(text, from, subs, api, 1);
  }

  /** Lines 28-51: one `messages.create` per number, `message` rebound after each success. */
  method SendEach(text: string, from: string, phones: seq<string>, api: MessagesApi)
    returns (reply: Reply<SendResult>, attempts: seq<Attempt>)
    ensures var run := AlertRun(text, from, phones, api, true);
      && attempts == run.attempts
      && reply == (if run.crash.Some? then Raised(run.crash.value) else Results(run.results))
  {
    var message := Text(text);
    var results: seq<SendResult> := [];
    attempts := [];
    var i := 0;
    while i < |phones|
      invariant 0 <= i <= |phones|
      invariant AlertRun(text, from, phones[..i], api, true) == Run(attempts, results, message, None)
    {
      assert phones[..i + 1][..i] == phones[..i];
      var phone := phones[i];
      attempts := attempts + [Attempt(message, from, phone)];
      var outcome := api(message, from, phone);
      if outcome.OtherError? {
        AlertCrashSticks(text, from, phones, api, true, i + 1);
        return Raised(ProviderError(outcome.message)), attempts;
      }
      if outcome.Created? {
        results := results + [SendResult(phone, true, outcome.sid)];
        message := MessageObject(outcome.sid);
      } else {
        results := results + [SendResult(phone, false, outcome.message)];
      }
      i := i + 1;
    }
    assert phones[..i] == phones;
    reply := Results(results);
  }

  /** The loop of `send_location_update_sms`: one send per subscriber whose attributes pass. */
  method NotifyEach(text: string, from: string, subs: seq<LocationSubscriber>, api: MessagesApi)
    returns (reply: Reply<SubscriberResult>, attempts: seq<Attempt>)
    ensures var run := SightingRun(text, from, subs, api);
      && attempts == run.attempts
      && reply == (if run.crash.Some? then Raised(run.crash.value) else Results(run.results))
  {
    var results: seq<SubscriberResult> := [];
    attempts := [];
    var i := 0;
    while i < |subs|
      invariant 0 <= i <= |subs|
      invariant SightingRun(text, from, subs[..i], api) == Run(attempts, results, Text(text), None)
    {
      assert subs[..i + 1][..i] == subs[..i];
      var s := subs[i];
      var gate := SubscriberGate(s);
      if gate.NoAttribute? {
        SightingCrashSticks(text, from, subs, api, i + 1);
        return Raised(AttributeError(gate.name)), attempts;
      }
      if gate.Send? {
        attempts := attempts + [Attempt(Text(text), from, s.phoneNumber)];
        var outcome := api(Text(text), from, s.phoneNumber);
        if outcome.OtherError? {
          SightingCrashSticks(text, from, subs, api, i + 1);
          return Raised(ProviderError(outcome.message)), attempts;
        }
        if outcome.Created? {
          results := results + [SubscriberResult(s.id, true, outcome.sid)];
        } else {
          results := results + [SubscriberResult(s.id, false, outcome.message)];
        }
      }
      i := i + 1;
    }
    assert subs[..i] == subs;
    reply := Results(results);
  }

  // ---- the gateway object ------------------------------------------------

  class SmsAlertSystem {
    const settings: Settings
    var client: Option<Client>

    /** `__init__`: a client only when both credentials are non-empty and construction does not raise. */
    constructor (settings: Settings, clientConstructionRaises: bool)
      ensures this.settings == settings
      ensures client.Some? <==> settings.accountSid != "" && settings.authToken != "" && !clientConstructionRaises
      ensures client.Some? ==> client.value == Client(settings.accountSid, settings.authToken)
    {
      this.settings := settings;
      client := None;
      if settings.accountSid != "" && settings.authToken != "" {
        if !clientConstructionRaises {
          client := Some(Client(settings.accountSid, settings.authToken));
        }
      }
    }

    /**
     * `send_sms_alert`: `False` and no call without a client; otherwise the
     * alert loop over `phones`.  A plain-string `child` has no `first_name`.
     */
    method SendSmsAlert(subject: AlertSubject, phones: seq<string>, api: MessagesApi)
      returns (reply: Reply<SendResult>, attempts: seq<Attempt>)
      ensures client.None? ==> reply == NoClient && attempts == []
      ensures client.Some? && subject.PlainText? ==> reply == Raised(AttributeError("first_name")) && attempts == []
      ensures client.Some? && subject.Child? ==>
        var run := AlertRun(FormatSmsMessage(subject.child), settings.phoneNumber, phones, api, true);
        && attempts == run.attempts
        && reply == (if run.crash.Some? then Raised(run.crash.value) else Results(run.results))
    {
      if client.None? {
        return NoClient, [];
      }
      if subject.PlainText? {
        return Raised(AttributeError("first_name")), [];
      }
      var message := FormatSmsMessage(subject.child);
      reply, attempts := SendEach(message, settings.phoneNumber, phones, api);
    }

    /** `send_verification_sms`: true only for the status `'pending'`. */
    method SendVerificationSms(phone: string, api: VerificationsApi) returns (r: Verdict, requested: bool)
      ensures client.None? ==> r == Verdict(false) && !requested
      ensures client.Some? ==> requested
      ensures r == Verdict(true) <==> client.Some? && api(settings.verifyServiceSid, phone) == Replied("pending")
      ensures r.VerdictRaised? <==> client.Some? && api(settings.verifyServiceSid, phone).VerifyOtherError?
    {
      if client.None? {
        return Verdict(false), false;
      }
      requested := true;
      match api(settings.verifyServiceSid, phone) {
        case Replied(status) => r := Verdict(status == "pending");
        case VerifyRestError(_) => r := Verdict(false);
        case VerifyOtherError(e) => r := VerdictRaised(ProviderError(e));
      }
    }

    /** `verify_sms_code`: true only for the status `'approved'`. */
    method VerifySmsCode(phone: string, code: string, api: ChecksApi) returns (r: Verdict, requested: bool)
      ensures client.None? ==> r == Verdict(false) && !requested
      ensures client.Some? ==> requested
      ensures r == Verdict(true) <==> client.Some? && api(settings.verifyServiceSid, phone, code) == Replied("approved")
      ensures r.VerdictRaised? <==> client.Some? && api(settings.verifyServiceSid, phone, code).VerifyOtherError?
    {
      if client.None? {
        return Verdict(false), false;
      }
      requested := true;
      match api(settings.verifyServiceSid, phone, code) {
        case Replied(status) => r := Verdict(status == "approved");
        case VerifyRestError(_) => r := Verdict(false);
        case VerifyOtherError(e) => r := VerdictRaised(ProviderError(e));
      }
    }

    /** `send_location_update_sms`: `False` without a client; otherwise the sighting loop. */
    method SendLocationUpdateSms(c: MissingChild, u: LocationUpdate, subs: seq<LocationSubscriber>, api: MessagesApi)
      returns (reply: Reply<SubscriberResult>, attempts: seq<Attempt>)
      ensures client.None? ==> reply == NoClient && attempts == []
      ensures client.Some? ==>
        var run := SightingRun(SightingMessage(c, u), settings.phoneNumber, subs, api);
        && attempts == run.attempts
        && reply == (if run.crash.Some? then Raised(run.crash.value) else Results(run.results))
    {
      if client.None? {
        return NoClient, [];
      }
      reply, attempts := NotifyEach(SightingMessage(c, u), settings.phoneNumber, subs, api);
    }
  }
}
